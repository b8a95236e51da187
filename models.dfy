/** The per-user session state (models.py): whether an attack is on, the engine that
    answers for it, the last answer, the saved transcript of the last attack, and the
    counter of failed attempts that triggers a session restart. */
module Sessions {
  import opened Text
  import opened Transcript
  import opened Faq
  import opened ActiveLearning
  import opened Conversation

  /** The `Attack` record: which attack was started and under which profile name. */
  datatype AttackConfig = AttackConfig(attackType: string, profileName: string)

  /** Failed attempts after which the session is restarted. */
  const MaxTries := 3

  class User {
    var currentAnswer: Option<string>
    var llm: Llm?
    var attack: Option<AttackConfig>
    var attackType: Option<string>
    const userId: int
    const userName: string
    var isInAttack: bool
    var transcript: Option<string>
    var triesCounter: int
    ghost var Repr: set<object>

    /** The counter never reaches the restart bound between calls, and the engine, when
        there is one, is owned by this user and well formed. */
    ghost predicate Valid()
      reads this, Repr
    {
      && this in Repr
      && 0 <= triesCounter < MaxTries
      && (llm != null ==> llm.Repr() <= Repr && this !in llm.Repr() && llm.Valid())
    }

    /** An attack is on exactly when there is an engine to answer for it. */
    ghost predicate Paired()
      reads this
    {
      isInAttack <==> llm != null
    }

    constructor (userId: int, userName: string)
      ensures Valid() && Paired() && fresh(Repr)
      ensures this.userId == userId && this.userName == userName
      ensures currentAnswer == None && llm == null && attack == None && attackType == None
      ensures !isInAttack && transcript == None && triesCounter == 0
    {
      currentAnswer := None;
      llm := null;
      attack := None;
      attackType := None;
      this.userId := userId;
      this.userName := userName;
      isInAttack := false;
      transcript := None;
      triesCounter := 0;
      Repr := {this};
    }

    /** Counts one failed attempt; on the third the counter goes back to zero and the
        attack is ended, which raises when there is no engine. */
    method IsRestartSession() returns (r: Outcome<bool>)
      requires Valid()
      modifies this
      ensures Valid() && Repr == old(Repr)
      ensures currentAnswer == old(currentAnswer)
      ensures old(triesCounter) + 1 < MaxTries ==>
                && r == Ok(false) && triesCounter == old(triesCounter) + 1
                && llm == old(llm) && isInAttack == old(isInAttack) && transcript == old(transcript)
                && attack == old(attack) && attackType == old(attackType)
      ensures old(triesCounter) + 1 >= MaxTries ==> triesCounter == 0
      ensures old(triesCounter) + 1 >= MaxTries && old(llm) == null ==>
                && r == Raised(AttributeError)
                && isInAttack == old(isInAttack) && transcript == old(transcript)
                && attack == old(attack) && attackType == old(attackType) && llm == null
      ensures old(triesCounter) + 1 >= MaxTries && old(llm) != null ==>
                && r == Ok(true)
                && transcript == Some(Transcription(old(llm.chatHistory.entries)))
                && !isInAttack && llm == null && attack == None && attackType == None && Paired()
    {
      triesCounter := triesCounter + 1;
      if triesCounter >= MaxTries {
        triesCounter := 0;
        var ended := EndAttack();
        if ended.Raised? {
          return Raised(ended.error);
        }
        return Ok(true);
      }
      r := Ok(false);
    }

    /** Starts an attack of the given type under the user's own name. `role` is the
        attack's role template and `csv` its knowledge base, None when the file is
        missing. The flags are set first, so a missing knowledge base leaves the user
        marked as in an attack with the previous engine, or none. */
    method StartNewAttack(attackType: string, role: string, csv: Option<seq<CsvRow>>) returns (r: Outcome<()>)
      requires Valid()
      modifies this
      ensures Valid() && old(Repr) <= Repr && fresh(Repr - old(Repr))
      ensures isInAttack && transcript == None && this.attackType == Some(attackType)
      ensures triesCounter == old(triesCounter)
      ensures csv.None? ==>
                && r == Raised(FileNotFoundError)
                && attack == old(attack) && llm == old(llm) && currentAnswer == old(currentAnswer)
      ensures csv.Some? ==>
                && r == Ok(()) && Paired()
                && attack == Some(AttackConfig(attackType, userName))
                && llm != null && fresh(llm.Repr())
                && currentAnswer == Some(Greeting(userName, attackType))
                && llm.chatHistory.entries == [Turn(AssistantRole, Greeting(userName, attackType))]
                && llm.purpose == Some(attackType) && llm.mimicName == userName
                && !llm.endConv && !llm.embedded
    {
      isInAttack := true;
      transcript := None;
      this.attackType := Some(attackType);
      // `Attack(...)` builds an engine of its own first; it is the one that raises
      var attackEngine := GenerateNewAttack(attackType, userName, role, csv);
      if attackEngine == null {
        return Raised(FileNotFoundError);
      }
      attack := Some(AttackConfig(attackType, userName));
      var engine := GenerateNewAttack(attackType, userName, role, csv);
      Attach(engine);
      r := Ok(());
    }

    /** Takes a newly built engine as this user's engine and shows its greeting. */
    method Attach(engine: Llm)
      requires Valid() && engine.Valid() && Repr !! engine.Repr()
      modifies this`llm, this`Repr, this`currentAnswer
      ensures Valid() && llm == engine && Repr == old(Repr) + engine.Repr()
      ensures currentAnswer == engine.initMsg
    {
      llm := engine;
      Repr := Repr + engine.Repr();
      currentAnswer := engine.GetInitMsg();
    }

    /** Keeps the transcript of the attack and clears the attack state; raises when
        there is no engine, changing nothing. */
    method EndAttack() returns (r: Outcome<()>)
      requires Valid()
      modifies this
      ensures Valid() && Repr == old(Repr)
      ensures currentAnswer == old(currentAnswer) && triesCounter == old(triesCounter)
      ensures old(llm) == null <==> r == Raised(AttributeError)
      ensures old(llm) == null ==> unchanged(this)
      ensures old(llm) != null ==>
                && r == Ok(())
                && transcript == Some(Transcription(old(llm.chatHistory.entries)))
                && !isInAttack && llm == null && attack == None && attackType == None && Paired()
    {
      if llm == null {
        return Raised(AttributeError);
      }
      var text := llm.GetTranscript();
      transcript := Some(text);
      isInAttack := false;
      attack := None;
      llm := null;
      attackType := None;
      r := Ok(());
    }

    /** Passes the prompt to the engine and remembers the answer; raises when there is
        no engine. See `Llm.GetAnswer` for how the answer is chosen. */
    method GetAnswerFromLlm(prompt: string, search: string -> Neighbor, chain: ChainInput -> string, learner: Learner)
      returns (r: Outcome<string>)
      requires Valid() && learner.Valid()
      modifies Repr, learner
      ensures Valid() && learner.Valid() && Repr == old(Repr)
      ensures llm == old(llm) && isInAttack == old(isInAttack) && attack == old(attack)
      ensures attackType == old(attackType) && transcript == old(transcript) && triesCounter == old(triesCounter)
      ensures old(llm) == null ==> r == Raised(AttributeError) && currentAnswer == old(currentAnswer)
      ensures r.Raised? ==> currentAnswer == old(currentAnswer)
      ensures r.Ok? ==> currentAnswer == Some(r.value)
      ensures r.Ok? && old(llm.endConv) ==> r.value == DoneMessage
      ensures r.Ok? && !old(llm.endConv) ==>
                llm.chatHistory.entries == old(llm.chatHistory.entries) + [Turn(UserRole, prompt), Turn(AssistantRole, r.value)]
    {
      if llm == null {
        return Raised(AttributeError);
      }
      var answer, usedChain := llm.GetAnswer(prompt, search, chain, learner);
      if answer.Raised? {
        return Raised(answer.error);
      }
      currentAnswer := Some(answer.value);
      r := answer;
    }
  }

  /** A start whose knowledge base is missing leaves the user in an attack with no
      engine; asking for an answer then raises, and the third restart attempt resets
      the counter but raises in `end_attack`. */
  method FailedStartThenRestart(userId: int, userName: string, attackType: string, role: string,
                                search: string -> Neighbor, chain: ChainInput -> string)
    returns (started: Outcome<()>, answer: Outcome<string>, first: Outcome<bool>,
             second: Outcome<bool>, third: Outcome<bool>, inAttack: bool, tries: int)
    ensures started == Raised(FileNotFoundError) && answer == Raised(AttributeError)
    ensures first == Ok(false) && second == Ok(false) && third == Raised(AttributeError)
    ensures inAttack && tries == 0
  {
    var u := new User(userId, userName);
    var learner := new Learner();
    started := u.StartNewAttack(attackType, role, None);
    answer := u.GetAnswerFromLlm("hello", search, chain, learner);
    first := u.IsRestartSession();
    second := u.IsRestartSession();
    third := u.IsRestartSession();
    inAttack := u.isInAttack;
    tries := u.triesCounter;
  }
}
