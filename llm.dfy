/** The per-turn answer pipeline of one attack (llm.py): an FAQ hit first, then the
    account/ID number validator, then the generative chain, recorded into the
    transcript, with an optional learning sample and termination on "bye".
    The language model behind the chain is an oracle from its input to its text. */
module Conversation {
  import opened Text
  import opened Transcript
  import opened Faq
  import opened ActiveLearning

  const DoneMessage := "The conversation is done. Have a great day!"
  const NotRealNumber := "This is not a real number"
  const BankAccepted := "Thank you, we have solved the issue. Goodbye"
  const BankAskDigits := "I need a 6 digit account number"
  const HospitalAccepted := "Thank you, we have opened your account. Goodbye"
  const HospitalAskDigits := "I need a 9 digit ID"
  const DefaultMimicName := "Donald"

  /** The opening line recorded as the first assistant turn of an attack. */
  function Greeting(name: string, purpose: string): string
  {
    "Hello " + name + ", its Jason from " + purpose + "."
  }

  /** What the prompt chain is invoked with: the role template it was built from, the
      recorded history, the persona name and the current prompt. */
  datatype ChainInput = ChainInput(template: Option<string>, history: seq<Turn>, name: string, context: string)

  // ---------------------------------------------------------------------------
  // The account / ID number validator (validate_number)
  // ---------------------------------------------------------------------------

  predicate IsDigit(c: char)
  {
    '0' <= c <= '9'
  }

  predicate NoDigit(s: string)
  {
    forall k :: 0 <= k < |s| ==> !IsDigit(s[k])
  }

  predicate AllDigits(s: string)
  {
    forall k :: 0 <= k < |s| ==> IsDigit(s[k])
  }

  predicate AllZeros(s: string)
  {
    forall k :: 0 <= k < |s| ==> s[k] == '0'
  }

  /** `prompt.replace(" ", "")`. */
  function RemoveSpaces(s: string): (r: string)
    ensures |r| <= |s|
    ensures forall c :: c in r <==> c in s && c != ' '
  {
    if s == [] then []
    else if s[0] == ' ' then RemoveSpaces(s[1..])
    else [s[0]] + RemoveSpaces(s[1..])
  }

  /** Removing spaces distributes over concatenation. */
  lemma {:induction false} RemoveSpacesAppend(a: string, b: string)
    ensures RemoveSpaces(a + b) == RemoveSpaces(a) + RemoveSpaces(b)
    decreases |a|
  {
    if a == [] {
      assert a + b == b;
    } else {
      assert (a + b)[0] == a[0] && (a + b)[1..] == a[1..] + b;
      RemoveSpacesAppend(a[1..], b);
    }
  }

  /** A string without spaces is left as it is. */
  lemma {:induction false} RemoveSpacesNoSpace(s: string)
    requires ' ' !in s
    ensures RemoveSpaces(s) == s
    decreases |s|
  {
    if s != [] {
      RemoveSpacesNoSpace(s[1..]);
      assert [s[0]] + s[1..] == s;
    }
  }

  /** `p`, `d`, `q` split a string at its first maximal run of digits `d`. */
  predicate IsFirstRun(p: string, d: string, q: string)
  {
    NoDigit(p) && d != [] && AllDigits(d) && (q == [] || !IsDigit(q[0]))
  }

  /** The longest all-digit prefix and what follows it. */
  function SpanDigits(s: string): (r: (string, string))
    ensures s == r.0 + r.1 && AllDigits(r.0)
    ensures r.1 == [] || !IsDigit(r.1[0])
  {
    if s != [] && IsDigit(s[0]) then
      var rest := SpanDigits(s[1..]);
      ([s[0]] + rest.0, rest.1)
    else ([], s)
  }

  /** `re.findall(r'\d+', s)[0]`, with the text before and after it; None when `s`
      has no digit at all. */
  function SplitFirstRun(s: string): (r: Option<(string, string, string)>)
    ensures r.None? <==> NoDigit(s)
    ensures r.Some? ==> s == r.value.0 + r.value.1 + r.value.2 && IsFirstRun(r.value.0, r.value.1, r.value.2)
  {
    if s == [] then None
    else if IsDigit(s[0]) then
      var span := SpanDigits(s);
      Some(([], span.0, span.1))
    else
      match SplitFirstRun(s[1..])
      case None => None
      case Some(split) => Some(([s[0]] + split.0, split.1, split.2))
  }

  lemma {:induction false} SpanDigitsUnique(d: string, q: string)
    requires AllDigits(d) && (q == [] || !IsDigit(q[0]))
    ensures SpanDigits(d + q) == (d, q)
    decreases |d|
  {
    if d == [] {
      assert d + q == q;
    } else {
      assert (d + q)[0] == d[0] && IsDigit(d[0]);
      assert (d + q)[1..] == d[1..] + q;
      SpanDigitsUnique(d[1..], q);
      assert [d[0]] + d[1..] == d;
    }
  }

  /** The first run of digits is unique: any split of `s` into non-digits, a maximal
      run of digits and the rest is the one `SplitFirstRun` finds. */
  lemma {:induction false} FirstRunUnique(s: string, p: string, d: string, q: string)
    requires s == p + d + q && IsFirstRun(p, d, q)
    ensures SplitFirstRun(s) == Some((p, d, q))
    decreases |p|
  {
    if p == [] {
      assert s == d + q;
      SpanDigitsUnique(d, q);
    } else {
      assert s[0] == p[0] && !IsDigit(p[0]);
      assert s[1..] == p[1..] + d + q;
      assert NoDigit(p[1..]) by {
        forall k | 0 <= k < |p[1..]| ensures !IsDigit(p[1..][k]) {
          assert p[1..][k] == p[k + 1];
        }
      }
      FirstRunUnique(s[1..], p[1..], d, q);
      assert [p[0]] + p[1..] == p;
    }
  }

  /** `int(digits)`. */
  function DigitsValue(d: string): nat
    requires AllDigits(d)
  {
    if d == [] then 0 else DigitsValue(d[..|d| - 1]) * 10 + (d[|d| - 1] as int - '0' as int)
  }

  /** A run of digits has value 0 exactly when every digit is '0', so "000000" is
      rejected as not a real number however many digits it has. */
  lemma {:induction false} DigitsValueZeroIff(d: string)
    requires AllDigits(d)
    ensures DigitsValue(d) == 0 <==> AllZeros(d)
    decreases |d|
  {
    if d != [] {
      var init := d[..|d| - 1];
      DigitsValueZeroIff(init);
      assert AllZeros(d) <==> AllZeros(init) && d[|d| - 1] == '0' by {
        if AllZeros(init) && d[|d| - 1] == '0' {
          forall k | 0 <= k < |d| ensures d[k] == '0' {
            if k < |d| - 1 { assert d[k] == init[k]; }
          }
        }
        if AllZeros(d) {
          forall k | 0 <= k < |init| ensures init[k] == '0' {
            assert init[k] == d[k];
          }
        }
      }
    }
  }

  /** The validator's answer to `prompt` for an attack of the given purpose. */
  function ValidateNumber(purpose: Option<string>, prompt: string): (r: Option<string>)
    ensures r.Some? <==> (purpose == Some("Bank") || purpose == Some("Hospital")) && !NoDigit(RemoveSpaces(prompt))
    ensures r.Some? ==> r.value in {NotRealNumber, BankAccepted, BankAskDigits, HospitalAccepted, HospitalAskDigits}
  {
    match SplitFirstRun(RemoveSpaces(prompt))
    case None => None
    case Some(split) =>
      var number := split.1;
      if purpose == Some("Bank") then
        if DigitsValue(number) == 0 then Some(NotRealNumber)
        else if |number| == 6 then Some(BankAccepted)
        else Some(BankAskDigits)
      else if purpose == Some("Hospital") then
        if DigitsValue(number) == 0 then Some(NotRealNumber)
        else if |number| == 9 then Some(HospitalAccepted)
        else Some(HospitalAskDigits)
      else None
  }

  /** The Bank rule, stated on any split of the space-free prompt at its first run of
      digits: all zeros is not a real number, otherwise six digits (leading zeros
      count) are accepted, and any other length asks for six digits. */
  lemma BankRule(prompt: string, p: string, d: string, q: string)
    requires RemoveSpaces(prompt) == p + d + q && IsFirstRun(p, d, q)
    ensures ValidateNumber(Some("Bank"), prompt)
            == Some(if AllZeros(d) then NotRealNumber else if |d| == 6 then BankAccepted else BankAskDigits)
  {
    FirstRunUnique(RemoveSpaces(prompt), p, d, q);
    DigitsValueZeroIff(d);
  }

  /** The Hospital rule: the same shape with nine digits and its own messages. */
  lemma HospitalRule(prompt: string, p: string, d: string, q: string)
    requires RemoveSpaces(prompt) == p + d + q && IsFirstRun(p, d, q)
    ensures ValidateNumber(Some("Hospital"), prompt)
            == Some(if AllZeros(d) then NotRealNumber else if |d| == 9 then HospitalAccepted else HospitalAskDigits)
  {
    FirstRunUnique(RemoveSpaces(prompt), p, d, q);
    DigitsValueZeroIff(d);
  }

  /** Spaces never matter to the validator: "12 34 56" is read as "123456". */
  lemma SpacesIgnored(purpose: Option<string>, a: string, b: string)
    ensures ValidateNumber(purpose, a + " " + b) == ValidateNumber(purpose, a + b)
  {
    RemoveSpacesAppend(a + " ", b);
    RemoveSpacesAppend(a, " ");
    RemoveSpacesAppend(a, b);
    assert RemoveSpaces(" ") == "";
    assert RemoveSpaces(a) + "" == RemoveSpaces(a);
    assert RemoveSpaces(a + " " + b) == RemoveSpaces(a + b);
  }

  /** A prompt made of zeros only, of any length, is not a real number for either
      purpose, so "000000" is not a valid account number. */
  lemma ZerosRejected(purpose: string, zeros: string)
    requires purpose == "Bank" || purpose == "Hospital"
    requires zeros != [] && AllZeros(zeros)
    ensures ValidateNumber(Some(purpose), zeros) == Some(NotRealNumber)
  {
    assert ' ' !in zeros by {
      forall k | 0 <= k < |zeros| ensures zeros[k] != ' ' {
        assert zeros[k] == '0';
      }
    }
    RemoveSpacesNoSpace(zeros);
    assert zeros == [] + zeros + [];
    FirstRunUnique(zeros, [], zeros, []);
    DigitsValueZeroIff(zeros);
  }

  // ---------------------------------------------------------------------------
  // Termination detection
  // ---------------------------------------------------------------------------

  /** `'bye' in s.lower()`. */
  predicate ContainsBye(s: string)
  {
    IsSubstring("bye", Lower(s))
  }

  /** Both acceptance messages end in "Goodbye", so an accepted account number or ID
      ends the conversation. */
  lemma AcceptedMessagesSayBye()
    ensures ContainsBye(BankAccepted) && ContainsBye(HospitalAccepted)
  {
    var b := Lower(BankAccepted);
    assert b[|b| - 3..] == "bye" by {
      assert b[|b| - 3] == LowerChar(BankAccepted[|b| - 3]) == 'b';
      assert b[|b| - 2] == LowerChar(BankAccepted[|b| - 2]) == 'y';
      assert b[|b| - 1] == LowerChar(BankAccepted[|b| - 1]) == 'e';
    }
    SubstringAt("bye", b, |b| - 3);
    var h := Lower(HospitalAccepted);
    assert h[|h| - 3..] == "bye" by {
      assert h[|h| - 3] == LowerChar(HospitalAccepted[|h| - 3]) == 'b';
      assert h[|h| - 2] == LowerChar(HospitalAccepted[|h| - 2]) == 'y';
      assert h[|h| - 1] == LowerChar(HospitalAccepted[|h| - 1]) == 'e';
    }
    SubstringAt("bye", h, |h| - 3);
  }

  // ---------------------------------------------------------------------------
  // The `Llm` object
  // ---------------------------------------------------------------------------

  /** Between the two states the learner queued `s` at the back and did nothing else. */
  twostate predicate Enqueued(learner: Learner, s: Sample)
    reads learner
  {
    && learner.samples == old(learner.samples) + [s]
    && learner.submitted == old(learner.submitted) + [s]
    && learner.samplesSet == old(learner.samplesSet) && learner.stop == old(learner.stop)
    && learner.written == old(learner.written) && learner.processed == old(learner.processed)
  }

  /** `add_sample_for_learning`: queues a sample on the shared learner. */
  method AddSampleForLearning(learner: Learner, prompt: string, answer: string, path: Option<string>)
    requires learner.Valid()
    modifies learner
    ensures learner.Valid()
    ensures Enqueued(learner, Sample(prompt, answer, path))
  {
    learner.AddSample(Sample(prompt, answer, path));
  }

  class Llm {
    const chatHistory: ChatHistory
    const embeddingModel: Embeddings
    var userPrompt: Option<string>     // the role template the chain is built from
    var embedded: bool                 // `embedd_custom_knowledgebase`
    var mimicName: string
    var initMsg: Option<string>
    var endConv: bool
    var purpose: Option<string>

    ghost function Repr(): set<object>
    {
      {this, chatHistory, embeddingModel}
    }

    ghost predicate Valid()
      reads embeddingModel
    {
      embeddingModel.Valid() && embeddingModel.activeLearnerThreshold == ActiveLearnerThreshold
    }

    /** The retrieval outcome for `prompt` under the current FAQ table. */
    ghost function RetrievalFor(prompt: string, search: string -> Neighbor): Outcome<Retrieval>
      reads embeddingModel`faq, embeddingModel`sentencesMap
    {
      Retrieve(embeddingModel.faq, embeddingModel.sentencesMap, search(Lower(prompt)),
               DefaultThreshold, embeddingModel.activeLearnerThreshold)
    }

    /** The FAQ embedding is already built, or building it will not raise. */
    ghost predicate CanEmbed()
      reads this`embedded, embeddingModel`faq, embeddingModel`knowledgebase
    {
      embedded || (embeddingModel.faq.Some? && embeddingModel.knowledgebase.Some?)
    }

    /** `answer` is the reply to `prompt` after `history`: the FAQ answer on a hit, else
        the validator's message, else the chain's text; `usedChain` says whether the
        chain was consulted. */
    ghost predicate Answers(prompt: string, search: string -> Neighbor, chain: ChainInput -> string,
                            history: seq<Turn>, answer: string, usedChain: bool)
      reads this`purpose, this`userPrompt, this`mimicName, embeddingModel`faq, embeddingModel`sentencesMap
    {
      && RetrievalFor(prompt, search).Ok?
      && var ret := RetrievalFor(prompt, search).value;
         var validated := ValidateNumber(purpose, prompt);
         && (ret.answer.Some? ==> answer == ret.answer.value)
         && (ret.answer.None? && validated.Some? ==> answer == validated.value)
         && (usedChain <==> ret.answer.None? && validated.None?)
         && (usedChain ==> answer == chain(ChainInput(userPrompt, history, mimicName, prompt)))
    }

    /** A fresh engine; `currentRole` is the role template last set globally. */
    constructor (currentRole: Option<string>)
      ensures Valid() && fresh(chatHistory) && fresh(embeddingModel)
      ensures chatHistory.entries == [] && chatHistory.role == currentRole && chatHistory.name == "default"
      ensures embeddingModel.knowledgebase == Some(DefaultKnowledgebase) && embeddingModel.faq == None
      ensures embeddingModel.sentencesMap == map[] && embeddingModel.index == [] && embeddingModel.pending == []
      ensures userPrompt == currentRole && !embedded && mimicName == DefaultMimicName
      ensures initMsg == None && !endConv && purpose == None
    {
      embeddingModel := new Embeddings(None);
      chatHistory := new ChatHistory("default");
      new;
      chatHistory.InitializeRole(currentRole);
      userPrompt := chatHistory.GetPrompt();
      embedded := false;
      mimicName := DefaultMimicName;
      initMsg := None;
      endConv := false;
      purpose := None;
    }

    /** Prepares a new attack for `attackPurpose` played against `profileName`: `role`
        is the purpose's role template and `csv` its knowledge base (None when the file
        is missing, which raises half-way, after the purpose is recorded). The history
        is not cleared: the greeting is appended to it. */
    method InitializeNewAttack(attackPurpose: string, profileName: string, role: string,
                               csv: Option<seq<CsvRow>>) returns (r: Outcome<()>)
      requires Valid()
      modifies Repr()
      ensures Valid()
      ensures !endConv && mimicName == profileName && purpose == Some(attackPurpose)
      ensures embeddingModel.knowledgebase == Some(attackPurpose)
      ensures embeddingModel.jsonFilename == Some(attackPurpose + ".json")
      ensures embeddingModel.knowledgebaseFilePath == Some(KnowledgebasePath(attackPurpose))
      ensures embeddingModel.index == old(embeddingModel.index) && embeddingModel.pending == old(embeddingModel.pending)
      ensures csv.None? ==>
                && r == Raised(FileNotFoundError)
                && embeddingModel.faq == old(embeddingModel.faq)
                && embeddingModel.sentencesMap == old(embeddingModel.sentencesMap)
                && unchanged(chatHistory)
                && userPrompt == old(userPrompt) && embedded == old(embedded) && initMsg == old(initMsg)
      ensures csv.Some? ==>
                && r == Ok(())
                && embeddingModel.faq == Some(Questions(DropNa(csv.value)))
                && embeddingModel.sentencesMap == Load(old(embeddingModel.sentencesMap), DropNa(csv.value))
                && chatHistory.name == profileName && chatHistory.role == Some(role)
                && userPrompt == Some(role) && !embedded
                && initMsg == Some(Greeting(profileName, attackPurpose))
                && chatHistory.entries == old(chatHistory.entries) + [Turn(AssistantRole, Greeting(profileName, attackPurpose))]
    {
      endConv := false;
      mimicName := profileName;
      purpose := Some(attackPurpose);
      var loaded := embeddingModel.InitializeAgain(attackPurpose, csv);
      if loaded.Raised? {
        return Raised(loaded.error);
      }
      StartTranscript(profileName, role, Greeting(profileName, attackPurpose));
      r := Ok(());
    }

    /** Once the knowledge base is loaded: files the transcript under the profile name,
        installs the role template, and records the greeting as the first reply. */
    method StartTranscript(profileName: string, role: string, greeting: string)
      modifies chatHistory, this`userPrompt, this`embedded, this`initMsg
      ensures chatHistory.name == profileName && chatHistory.role == Some(role)
      ensures chatHistory.entries == old(chatHistory.entries) + [Turn(AssistantRole, greeting)]
      ensures userPrompt == Some(role) && !embedded && initMsg == Some(greeting)
    {
      chatHistory.SetProfileNameForTranscript(profileName);
      chatHistory.InitializeRole(Some(role));
      userPrompt := chatHistory.GetPrompt();
      embedded := false;
      initMsg := Some(greeting);
      chatHistory.AddAiResponse(greeting);
    }

    method GetInitMsg() returns (r: Option<string>)
      ensures r == initMsg
    {
      r := initMsg;
    }

    method IsConversationDone() returns (r: bool)
      ensures r == endConv
    {
      r := endConv;
    }

    method GetTranscript() returns (r: string)
      ensures r == Transcription(chatHistory.entries)
    {
      r := chatHistory.GetTranscription();
    }

    /** Queues a learning sample when retrieval asked for one, and ends the
        conversation when the answer or the prompt contains "bye" in any case. */
    method ActionsForNextState(applyActiveLearning: bool, prompt: string, answer: string, learner: Learner)
      requires learner.Valid()
      modifies this`endConv, learner
      ensures learner.Valid()
      ensures endConv == (old(endConv) || ContainsBye(answer) || ContainsBye(prompt))
      ensures applyActiveLearning ==> Enqueued(learner, Sample(prompt, answer, embeddingModel.knowledgebaseFilePath))
      ensures !applyActiveLearning ==> unchanged(learner)
    {
      if applyActiveLearning {
        AddSampleForLearning(learner, prompt, answer, embeddingModel.knowledgebaseFilePath);
      }
      if ContainsBye(answer) || ContainsBye(prompt) {
        endConv := true;
      }
    }

    /** Answers one user prompt. `search` is the embedding and index oracle, `chain`
        the language model behind the prompt chain; `usedChain` tells whether the chain
        was consulted. */
    method GetAnswer(prompt: string, search: string -> Neighbor, chain: ChainInput -> string, learner: Learner)
      returns (r: Outcome<string>, ghost usedChain: bool)
      requires Valid() && learner.Valid()
      modifies Repr(), learner
      ensures Valid() && learner.Valid()
      // what a turn never touches
      ensures userPrompt == old(userPrompt) && mimicName == old(mimicName)
      ensures purpose == old(purpose) && initMsg == old(initMsg)
      ensures chatHistory.role == old(chatHistory.role) && chatHistory.name == old(chatHistory.name)
      ensures embeddingModel.faq == old(embeddingModel.faq)
      ensures embeddingModel.sentencesMap == old(embeddingModel.sentencesMap)
      ensures embeddingModel.knowledgebase == old(embeddingModel.knowledgebase)
      ensures embeddingModel.knowledgebaseFilePath == old(embeddingModel.knowledgebaseFilePath)
      ensures embeddingModel.jsonFilename == old(embeddingModel.jsonFilename)
      ensures embeddingModel.pending == old(embeddingModel.pending)
      // a finished conversation answers with a fixed text and changes nothing
      ensures old(endConv) ==>
                && r == Ok(DoneMessage) && !usedChain && endConv && embedded == old(embedded)
                && chatHistory.entries == old(chatHistory.entries)
                && embeddingModel.index == old(embeddingModel.index) && unchanged(learner)
      // the FAQ embedding is built on the first active turn only, one vector per question
      ensures !old(endConv) && !old(embedded) && embeddingModel.faq.Some? ==>
                embeddingModel.index == old(embeddingModel.index) + embeddingModel.faq.value
      ensures !old(endConv) && !old(embedded) && embeddingModel.faq.None? ==> r == Raised(TypeError)
      ensures old(endConv) || old(embedded) || embeddingModel.faq.None? ==>
                embeddingModel.index == old(embeddingModel.index)
      ensures !old(endConv) ==> (embedded <==> old(CanEmbed()))
      ensures !old(endConv) ==> (r.Ok? <==> old(CanEmbed()) && RetrievalFor(prompt, search).Ok?)
      // a failed turn keeps the prompt it recorded and nothing else
      ensures !old(endConv) && r.Raised? ==>
                && !usedChain && endConv == old(endConv)
                && chatHistory.entries == old(chatHistory.entries) + [Turn(UserRole, prompt)]
                && unchanged(learner)
      // an answered turn: FAQ hit, else validator, else chain; both turns recorded
      ensures !old(endConv) && r.Ok? ==>
                var ret := RetrievalFor(prompt, search).value;
                && Answers(prompt, search, chain, old(chatHistory.entries) + [Turn(UserRole, prompt)], r.value, usedChain)
                && chatHistory.entries == old(chatHistory.entries) + [Turn(UserRole, prompt), Turn(AssistantRole, r.value)]
                && endConv == (ContainsBye(r.value) || ContainsBye(prompt))
                && (ret.learn ==> Enqueued(learner, Sample(prompt, r.value, embeddingModel.knowledgebaseFilePath)))
                && (!ret.learn ==> unchanged(learner))
    {
      if endConv {
        r, usedChain := Ok(DoneMessage), false;
      } else {
        r, usedChain := ActiveTurn(prompt, search, chain, learner);
      }
    }

    /** A turn of a conversation that is not finished: the prompt is recorded, the
        embedding built if need be, and the answer chosen and recorded. */
    method ActiveTurn(prompt: string, search: string -> Neighbor, chain: ChainInput -> string, learner: Learner)
      returns (r: Outcome<string>, ghost usedChain: bool)
      requires Valid() && learner.Valid() && !endConv
      modifies Repr(), learner
      ensures Valid() && learner.Valid()
      // what a turn never touches
      ensures userPrompt == old(userPrompt) && mimicName == old(mimicName)
      ensures purpose == old(purpose) && initMsg == old(initMsg)
      ensures chatHistory.role == old(chatHistory.role) && chatHistory.name == old(chatHistory.name)
      ensures embeddingModel.faq == old(embeddingModel.faq)
      ensures embeddingModel.sentencesMap == old(embeddingModel.sentencesMap)
      ensures embeddingModel.knowledgebase == old(embeddingModel.knowledgebase)
      ensures embeddingModel.knowledgebaseFilePath == old(embeddingModel.knowledgebaseFilePath)
      ensures embeddingModel.jsonFilename == old(embeddingModel.jsonFilename)
      ensures embeddingModel.pending == old(embeddingModel.pending)
      // the FAQ embedding is built on the first active turn only, one vector per question
      ensures !old(embedded) && embeddingModel.faq.Some? ==>
                embeddingModel.index == old(embeddingModel.index) + embeddingModel.faq.value
      ensures !old(embedded) && embeddingModel.faq.None? ==> r == Raised(TypeError)
      ensures old(embedded) || embeddingModel.faq.None? ==>
                embeddingModel.index == old(embeddingModel.index)
      ensures embedded <==> old(CanEmbed())
      ensures r.Ok? <==> old(CanEmbed()) && RetrievalFor(prompt, search).Ok?
      // a failed turn keeps the prompt it recorded and nothing else
      ensures r.Raised? ==>
                && !usedChain && endConv == old(endConv)
                && chatHistory.entries == old(chatHistory.entries) + [Turn(UserRole, prompt)]
                && unchanged(learner)
      // an answered turn: FAQ hit, else validator, else chain; both turns recorded
      ensures r.Ok? ==>
                var ret := RetrievalFor(prompt, search).value;
                && Answers(prompt, search, chain, old(chatHistory.entries) + [Turn(UserRole, prompt)], r.value, usedChain)
                && chatHistory.entries == old(chatHistory.entries) + [Turn(UserRole, prompt), Turn(AssistantRole, r.value)]
                && endConv == (ContainsBye(r.value) || ContainsBye(prompt))
                && (ret.learn ==> Enqueued(learner, Sample(prompt, r.value, embeddingModel.knowledgebaseFilePath)))
                && (!ret.learn ==> unchanged(learner))
    {
      chatHistory.AddHumanMessage(prompt);
      var built := EnsureEmbedded();
      if built.Raised? {
        r, usedChain := Raised(built.error), false;
      } else {
        r, usedChain := Respond(prompt, search, chain, learner);
      }
    }

    /** Builds the FAQ embedding on the first use; `embedded` is set only when building
        did not raise. */
    method EnsureEmbedded() returns (r: Outcome<()>)
      modifies this`embedded, embeddingModel`index
      ensures unchanged(chatHistory)
      ensures embeddingModel.faq == old(embeddingModel.faq) && embeddingModel.sentencesMap == old(embeddingModel.sentencesMap)
      ensures embeddingModel.knowledgebase == old(embeddingModel.knowledgebase) && embeddingModel.pending == old(embeddingModel.pending)
      ensures embeddingModel.knowledgebaseFilePath == old(embeddingModel.knowledgebaseFilePath)
      ensures embeddingModel.jsonFilename == old(embeddingModel.jsonFilename)
      ensures r.Ok? <==> old(CanEmbed())
      ensures embedded <==> old(CanEmbed())
      ensures !old(embedded) && embeddingModel.faq.Some? ==>
                embeddingModel.index == old(embeddingModel.index) + embeddingModel.faq.value
      ensures !old(embedded) && embeddingModel.faq.None? ==> r == Raised(TypeError)
      ensures old(embedded) || embeddingModel.faq.None? ==> embeddingModel.index == old(embeddingModel.index)
    {
      r := Ok(());
      if !embedded {
        var built := embeddingModel.GenerateFaqEmbedding();
        if built.Raised? {
          return Raised(built.error);
        }
        embedded := true;
      }
    }

    /** The rest of a turn once the prompt is recorded and the embedding is built:
        retrieval, the choice of answer, its recording and the follow-up actions. */
    method Respond(prompt: string, search: string -> Neighbor, chain: ChainInput -> string, learner: Learner)
      returns (r: Outcome<string>, ghost usedChain: bool)
      requires learner.Valid()
      modifies chatHistory, this`endConv, learner
      ensures learner.Valid() && unchanged(embeddingModel) && embedded == old(embedded)
      ensures chatHistory.role == old(chatHistory.role) && chatHistory.name == old(chatHistory.name)
      ensures r.Ok? <==> RetrievalFor(prompt, search).Ok?
      ensures r.Raised? ==>
                && !usedChain && endConv == old(endConv)
                && chatHistory.entries == old(chatHistory.entries) && unchanged(learner)
      ensures r.Ok? ==>
                var ret := RetrievalFor(prompt, search).value;
                && Answers(prompt, search, chain, old(chatHistory.entries), r.value, usedChain)
                && chatHistory.entries == old(chatHistory.entries) + [Turn(AssistantRole, r.value)]
                && endConv == (old(endConv) || ContainsBye(r.value) || ContainsBye(prompt))
                && (ret.learn ==> Enqueued(learner, Sample(prompt, r.value, embeddingModel.knowledgebaseFilePath)))
                && (!ret.learn ==> unchanged(learner))
    {
      usedChain := false;
      var retrieval := embeddingModel.GetAnswerFromEmbedding(prompt, search, DefaultThreshold);
      if retrieval.Raised? {
        return Raised(retrieval.error), false;
      }
      var answer: string;
      if retrieval.value.answer.Some? {
        answer := retrieval.value.answer.value;
      } else {
        var validated := ValidateNumber(purpose, prompt);
        if validated.Some? {
          answer := validated.value;
        } else {
          var history := chatHistory.GetChatHistory();
          answer := chain(ChainInput(userPrompt, history, mimicName, prompt));
          usedChain := true;
        }
      }
      chatHistory.AddAiResponse(answer);
      ActionsForNextState(retrieval.value.learn, prompt, answer, learner);
      r := Ok(answer);
    }
  }

  /** An engine whose FAQ table is well formed never fails a lookup with KeyError:
      every listed question has its answer in the map. */
  lemma ValidEngineNoKeyError(l: Llm, prompt: string, search: string -> Neighbor)
    requires l.Valid()
    ensures l.RetrievalFor(prompt, search) != Raised(KeyError)
  {
    if l.embeddingModel.faq.Some? {
      NoKeyErrorWhenMapCoversFaq(l.embeddingModel.faq.value, l.embeddingModel.sentencesMap,
                                 search(Lower(prompt)), DefaultThreshold, l.embeddingModel.activeLearnerThreshold);
    }
  }

  /** `llm_factory.generate_new_attack`: a fresh engine prepared for the attack, or
      no engine when the knowledge base is missing (the exception propagates). The
      role template the fresh engine starts with is replaced before it can be seen. */
  method GenerateNewAttack(attackType: string, profileName: string, role: string, csv: Option<seq<CsvRow>>)
    returns (llm: Llm?)
    ensures llm == null <==> csv.None?
    ensures llm != null ==>
              && fresh(llm.Repr()) && llm.Valid()
              && !llm.endConv && !llm.embedded
              && llm.chatHistory.entries == [Turn(AssistantRole, Greeting(profileName, attackType))]
              && llm.initMsg == Some(Greeting(profileName, attackType))
              && llm.purpose == Some(attackType) && llm.mimicName == profileName
              && llm.chatHistory.name == profileName && llm.chatHistory.role == Some(role)
              && llm.userPrompt == Some(role)
              && llm.embeddingModel.knowledgebase == Some(attackType)
              && llm.embeddingModel.jsonFilename == Some(attackType + ".json")
              && llm.embeddingModel.knowledgebaseFilePath == Some(KnowledgebasePath(attackType))
              && llm.embeddingModel.faq == Some(Questions(DropNa(csv.value)))
              && llm.embeddingModel.sentencesMap == Load(map[], DropNa(csv.value))
              && llm.embeddingModel.index == []
  {
    llm := new Llm(None);
    var started := llm.InitializeNewAttack(attackType, profileName, role, csv);
    if started.Raised? {
      llm := null;
    }
  }
}
