/** The FAQ table and retrieval decision of one knowledge base (embeddings.py).
    The sentence encoder and the FAISS index search are an oracle: for a (lower-cased)
    query it yields the nearest stored ordinal and its distance. The in-memory index
    is modelled by the sequence of sentences whose vectors it holds, in ordinal order. */
module Faq {
  import opened Text

  /** One row of the `question;answer` CSV; a missing cell reads as NaN (`None` here). */
  datatype CsvRow = CsvRow(question: Option<string>, answer: Option<string>)

  /** The first hit of a nearest-neighbour search: `indices[0][0]`, `distances[0][0]`. */
  datatype Neighbor = Neighbor(ordinal: int, distance: real)

  /** What `get_answer_from_embedding` returns: the stored answer (or None) and the
      active-learning flag. */
  datatype Retrieval = Retrieval(answer: Option<string>, learn: bool)

  const DefaultThreshold: real := 0.7
  const ActiveLearnerThreshold: real := 1.19999
  const DefaultKnowledgebase := "clone"

  // ---------------------------------------------------------------------------
  // Building the FAQ list and the question -> answer map (get_faq)
  // ---------------------------------------------------------------------------

  /** `df.dropna()`: the rows with both cells present, in file order. */
  function DropNa(rows: seq<CsvRow>): (r: seq<(string, string)>)
    ensures |r| <= |rows|
    ensures forall p :: p in r ==> CsvRow(Some(p.0), Some(p.1)) in rows
    ensures forall k :: 0 <= k < |rows| && rows[k].question.Some? && rows[k].answer.Some? ==>
              (rows[k].question.value, rows[k].answer.value) in r
    ensures (forall k :: 0 <= k < |rows| ==> rows[k].question.Some? && rows[k].answer.Some?) ==>
              |r| == |rows| && forall k :: 0 <= k < |rows| ==> r[k] == (rows[k].question.value, rows[k].answer.value)
  {
    if rows == [] then []
    else
      var rest := DropNa(rows[1..]);
      assert forall p :: p in rest ==> CsvRow(Some(p.0), Some(p.1)) in rows[1..];
      assert forall k :: 1 <= k < |rows| ==> rows[k] == rows[1..][k - 1];
      if rows[0].question.Some? && rows[0].answer.Some? then
        [(rows[0].question.value, rows[0].answer.value)] + rest
      else rest
  }

  /** Filtering keeps the file order: the complete rows of a concatenation are those
      of its first part followed by those of its second. */
  lemma {:induction false} DropNaAppend(a: seq<CsvRow>, b: seq<CsvRow>)
    ensures DropNa(a + b) == DropNa(a) + DropNa(b)
    decreases |a|
  {
    if a == [] {
      assert a + b == b;
    } else {
      assert (a + b)[0] == a[0] && (a + b)[1..] == a[1..] + b;
      DropNaAppend(a[1..], b);
    }
  }

  /** The questions in row order, repeats included. */
  function Questions(rows: seq<(string, string)>): (qs: seq<string>)
    ensures |qs| == |rows|
    ensures forall i :: 0 <= i < |rows| ==> qs[i] == rows[i].0
    ensures forall q :: q in qs <==> exists j :: 0 <= j < |rows| && rows[j].0 == q
  {
    seq(|rows|, i requires 0 <= i < |rows| => rows[i].0)
  }

  /** `sentences_map` after the rows are written into `m` one after the other. */
  function Load(m: map<string, string>, rows: seq<(string, string)>): map<string, string>
    decreases |rows|
  {
    if rows == [] then m
    else Load(m, rows[..|rows| - 1])[rows[|rows| - 1].0 := rows[|rows| - 1].1]
  }

  /** The keys after loading are the old keys plus every question of the rows. */
  lemma {:induction false} LoadKeys(m: map<string, string>, rows: seq<(string, string)>)
    ensures forall k :: k in Load(m, rows) <==> k in m || k in Questions(rows)
    decreases |rows|
  {
    if rows != [] {
      var init := rows[..|rows| - 1];
      LoadKeys(m, init);
      assert Questions(rows) == Questions(init) + [rows[|rows| - 1].0];
    }
  }

  /** Last write wins: a question maps to the answer of the last row that carries it. */
  lemma {:induction false} LoadLastWriteWins(m: map<string, string>, rows: seq<(string, string)>, i: nat)
    requires i < |rows|
    requires forall j :: i < j < |rows| ==> rows[j].0 != rows[i].0
    ensures rows[i].0 in Load(m, rows) && Load(m, rows)[rows[i].0] == rows[i].1
    decreases |rows|
  {
    if i < |rows| - 1 {
      LoadLastWriteWins(m, rows[..|rows| - 1], i);
    }
  }

  /** A key no row carries keeps whatever the map held before. */
  lemma {:induction false} LoadUntouched(m: map<string, string>, rows: seq<(string, string)>, k: string)
    requires forall j :: 0 <= j < |rows| ==> rows[j].0 != k
    ensures k in Load(m, rows) <==> k in m
    ensures k in m ==> Load(m, rows)[k] == m[k]
    decreases |rows|
  {
    if rows != [] {
      LoadUntouched(m, rows[..|rows| - 1], k);
    }
  }

  // ---------------------------------------------------------------------------
  // The retrieval decision (get_answer_from_embedding)
  // ---------------------------------------------------------------------------

  /** Python accepts list indices from `-n` to `n - 1`. */
  predicate InRange(i: int, n: nat)
  {
    -(n as int) <= i < n
  }

  /** The element position a Python index denotes; negative indices count from the end. */
  function PyIndex(i: int, n: nat): (k: nat)
    requires InRange(i, n)
    ensures k < n
    ensures i >= 0 ==> k == i
    ensures i < 0 ==> k == n + i
  {
    if i < 0 then n + i else i
  }

  /** The decision of `get_answer_from_embedding` for a nearest hit `hit`. */
  function Retrieve(faq: Option<seq<string>>, sentences: map<string, string>, hit: Neighbor,
                    threshold: real, learnThreshold: real): (r: Outcome<Retrieval>)
    ensures r.Ok? ==> r.value.learn == (hit.distance > learnThreshold)
    ensures r.Ok? ==> (r.value.answer.Some? <==> hit.distance < threshold)
    ensures r.Raised? ==> hit.distance < threshold
    ensures r.Ok? && r.value.answer.Some? ==> r.value.answer.value in sentences.Values
  {
    var learn := hit.distance > learnThreshold;
    if hit.distance < threshold then
      if faq.None? then Raised(TypeError)
      else if !InRange(hit.ordinal, |faq.value|) then Raised(IndexError)
      else
        var question := faq.value[PyIndex(hit.ordinal, |faq.value|)];
        if question in sentences then Ok(Retrieval(Some(sentences[question]), learn))
        else Raised(KeyError)
    else Ok(Retrieval(None, learn))
  }

  /** A close enough hit on a listed question yields that question's stored answer. */
  lemma RetrieveHit(faq: seq<string>, sentences: map<string, string>, hit: Neighbor,
                    threshold: real, learnThreshold: real)
    requires hit.distance < threshold && InRange(hit.ordinal, |faq|)
    requires faq[PyIndex(hit.ordinal, |faq|)] in sentences
    ensures Retrieve(Some(faq), sentences, hit, threshold, learnThreshold)
            == Ok(Retrieval(Some(sentences[faq[PyIndex(hit.ordinal, |faq|)]]), hit.distance > learnThreshold))
  {
  }

  /** A hit that is not close enough yields no answer, whatever the FAQ holds. */
  lemma RetrieveMiss(faq: Option<seq<string>>, sentences: map<string, string>, hit: Neighbor,
                     threshold: real, learnThreshold: real)
    requires hit.distance >= threshold
    ensures Retrieve(faq, sentences, hit, threshold, learnThreshold) == Ok(Retrieval(None, hit.distance > learnThreshold))
  {
  }

  /** An out-of-range ordinal is not answered with "Can you repeat it?": the handler
      subscripts the list again and the IndexError escapes. */
  lemma RetrieveOutOfRange(faq: seq<string>, sentences: map<string, string>, hit: Neighbor,
                           threshold: real, learnThreshold: real)
    requires hit.distance < threshold && !InRange(hit.ordinal, |faq|)
    ensures Retrieve(Some(faq), sentences, hit, threshold, learnThreshold) == Raised(IndexError)
  {
  }

  /** With the default thresholds a hit never asks for learning, and a miss asks for it
      exactly when the distance exceeds 1.19999. */
  lemma DefaultThresholdBands(faq: Option<seq<string>>, sentences: map<string, string>, hit: Neighbor)
    ensures var r := Retrieve(faq, sentences, hit, DefaultThreshold, ActiveLearnerThreshold);
            r.Ok? && r.value.answer.Some? ==> !r.value.learn
    ensures DefaultThreshold <= hit.distance <= ActiveLearnerThreshold ==>
            Retrieve(faq, sentences, hit, DefaultThreshold, ActiveLearnerThreshold) == Ok(Retrieval(None, false))
    ensures hit.distance > ActiveLearnerThreshold ==>
            Retrieve(faq, sentences, hit, DefaultThreshold, ActiveLearnerThreshold) == Ok(Retrieval(None, true))
  {
  }

  /** When every listed question has an entry in the map, the lookup never raises KeyError. */
  lemma NoKeyErrorWhenMapCoversFaq(faq: seq<string>, sentences: map<string, string>, hit: Neighbor,
                                   threshold: real, learnThreshold: real)
    requires forall q :: q in faq ==> q in sentences
    ensures Retrieve(Some(faq), sentences, hit, threshold, learnThreshold) != Raised(KeyError)
  {
  }

  /** Loading a CSV and hitting the ordinal of a question whose row is the last one to
      carry it returns that row's answer. */
  lemma {:induction false} LoadedHitAnswersLastRow(m: map<string, string>, rows: seq<(string, string)>, i: nat,
                                                   hit: Neighbor, threshold: real, learnThreshold: real)
    requires i < |rows| && hit.ordinal == i && hit.distance < threshold
    requires forall j :: i < j < |rows| ==> rows[j].0 != rows[i].0
    ensures Retrieve(Some(Questions(rows)), Load(m, rows), hit, threshold, learnThreshold)
            == Ok(Retrieval(Some(rows[i].1), hit.distance > learnThreshold))
  {
    LoadLastWriteWins(m, rows, i);
  }

  // ---------------------------------------------------------------------------
  // File names derived from the knowledge-base name
  // ---------------------------------------------------------------------------

  /** The knowledge-base CSV path below the module directory: the directory is the
      lower-cased name, the file keeps the name as given. The directory string already
      ends in a backslash, so joining appends the file name directly. */
  function KnowledgebasePath(kb: string): string
  {
    "\\prompts\\" + Lower(kb) + "\\" + kb + "-knowledge.csv"
  }

  /** Different knowledge-base names never share a CSV path. */
  lemma KnowledgebasePathInjective(a: string, b: string)
    requires KnowledgebasePath(a) == KnowledgebasePath(b)
    ensures a == b
  {
    var pa, pb := KnowledgebasePath(a), KnowledgebasePath(b);
    assert |pa| == 24 + 2 * |a| && |pb| == 24 + 2 * |b|;
    assert |a| == |b|;
    assert a == pa[10 + |a|..10 + 2 * |a|];
    assert b == pb[10 + |b|..10 + 2 * |b|];
  }

  /** The CSV file name ends in `"{kb}-knowledge.csv"` and its directory is `kb.lower()`. */
  lemma KnowledgebasePathShape(kb: string)
    ensures var p := KnowledgebasePath(kb);
            |p| == 24 + 2 * |kb| &&
            p[|p| - |kb| - 14..] == kb + "-knowledge.csv" &&
            p[9..9 + |kb|] == Lower(kb) && p[9 + |kb|] == '\\'
  {
  }

  /** The index file name `generate_faq_embedding` writes. */
  function IndexWriteName(kb: string): string
  {
    Lower(kb) + "-faiss.index"
  }

  /** The index file name `get_nearest_neighbors` reads. */
  function IndexReadName(kb: string): string
  {
    kb + "-faiss.index"
  }

  /** The index is read back under the name it was written with exactly when the
      knowledge-base name has no upper-case letter. */
  lemma IndexNamesAgreeIff(kb: string)
    ensures IndexWriteName(kb) == IndexReadName(kb) <==> forall i :: 0 <= i < |kb| ==> !IsUpper(kb[i])
  {
    LowerFixedIff(kb);
    if IndexWriteName(kb) == IndexReadName(kb) {
      assert Lower(kb) == IndexWriteName(kb)[..|kb|] == IndexReadName(kb)[..|kb|] == kb;
    }
  }

  /** For the scenario "Bank" the written and the read index names differ. */
  lemma BankIndexNamesDiffer()
    ensures IndexWriteName("Bank") != IndexReadName("Bank")
  {
    IndexNamesAgreeIff("Bank");
    assert IsUpper("Bank"[0]);
  }

  /** Two knowledge bases write the same index file exactly when their names agree
      after lower-casing, so names that differ only in case overwrite each other. */
  lemma IndexWriteNameCollidesIff(a: string, b: string)
    ensures IndexWriteName(a) == IndexWriteName(b) <==> Lower(a) == Lower(b)
  {
    if IndexWriteName(a) == IndexWriteName(b) {
      assert |a| == |b|;
      assert Lower(a) == IndexWriteName(a)[..|a|];
      assert Lower(b) == IndexWriteName(b)[..|b|];
    }
  }

  // ---------------------------------------------------------------------------
  // The `embeddings` object
  // ---------------------------------------------------------------------------

  class Embeddings {
    var pending: seq<(string, string)>          // `learner`: pairs kept for inspection
    var index: seq<string>                      // sentences encoded into the index, by ordinal
    var knowledgebase: Option<string>
    var jsonFilename: Option<string>
    var sentencesMap: map<string, string>
    var knowledgebaseFilePath: Option<string>
    var faq: Option<seq<string>>
    const activeLearnerThreshold: real

    /** Every listed question has an answer in the map. */
    ghost predicate Valid()
      reads this
    {
      faq.Some? ==> forall q :: q in faq.value ==> q in sentencesMap
    }

    constructor (knowledgebase: Option<string>)
      ensures Valid()
      ensures this.knowledgebase == Some(knowledgebase.GetOr(DefaultKnowledgebase))
      ensures jsonFilename == Some(knowledgebase.GetOr(DefaultKnowledgebase) + ".json")
      ensures pending == [] && index == [] && sentencesMap == map[]
      ensures knowledgebaseFilePath == None && faq == None
      ensures activeLearnerThreshold == ActiveLearnerThreshold
    {
      pending := [];
      index := [];
      this.knowledgebase := Some(knowledgebase.GetOr(DefaultKnowledgebase));
      jsonFilename := Some(knowledgebase.GetOr(DefaultKnowledgebase) + ".json");
      sentencesMap := map[];
      knowledgebaseFilePath := None;
      faq := None;
      activeLearnerThreshold := ActiveLearnerThreshold;
    }

    /** Drops the in-memory state. Saving the map first opens `json_filename`, which
        raises TypeError once a previous flush has set it to None. */
    method Flush() returns (r: Outcome<()>)
      requires Valid()
      modifies this
      ensures Valid()
      ensures old(jsonFilename).None? ==> r == Raised(TypeError) && unchanged(this)
      ensures old(jsonFilename).Some? ==>
                r == Ok(()) && sentencesMap == map[] && faq == None && knowledgebase == None &&
                knowledgebaseFilePath == None && jsonFilename == None && index == [] &&
                pending == old(pending)
    {
      if jsonFilename.None? {
        return Raised(TypeError);
      }
      sentencesMap := map[];
      knowledgebaseFilePath := None;
      jsonFilename := None;
      faq := None;
      knowledgebase := None;
      index := [];
      r := Ok(());
    }

    /** Points the object at knowledge base `kb` and reloads its FAQ; `csv` is the
        content of the CSV file, None when the file does not exist. */
    method InitializeAgain(kb: string, csv: Option<seq<CsvRow>>) returns (r: Outcome<()>)
      requires Valid()
      modifies this
      ensures Valid()
      ensures knowledgebase == Some(kb) && jsonFilename == Some(kb + ".json")
      ensures knowledgebaseFilePath == Some(KnowledgebasePath(kb))
      ensures csv.None? ==> r == Raised(FileNotFoundError) && faq == old(faq) && sentencesMap == old(sentencesMap)
      ensures csv.Some? ==> r == Ok(()) && faq == Some(Questions(DropNa(csv.value)))
                            && sentencesMap == Load(old(sentencesMap), DropNa(csv.value))
      ensures index == old(index) && pending == old(pending)
    {
      knowledgebase := Some(kb);
      jsonFilename := Some(kb + ".json");
      InitKnowledgebasePath(kb);
      var questions := GetFaq(csv);
      if questions.Raised? {
        return Raised(questions.error);
      }
      faq := Some(questions.value);
      r := Ok(());
    }

    method InitKnowledgebasePath(kb: string)
      modifies this`knowledgebaseFilePath
      ensures knowledgebaseFilePath == Some(KnowledgebasePath(kb))
    {
      knowledgebaseFilePath := Some(KnowledgebasePath(kb));
    }

    /** Reads the CSV rows into the question list and writes each row into the map. */
    method GetFaq(csv: Option<seq<CsvRow>>) returns (r: Outcome<seq<string>>)
      modifies this`sentencesMap
      ensures csv.None? ==> r == Raised(FileNotFoundError) && sentencesMap == old(sentencesMap)
      ensures csv.Some? ==> r == Ok(Questions(DropNa(csv.value)))
                            && sentencesMap == Load(old(sentencesMap), DropNa(csv.value))
      ensures r.Ok? ==> forall q :: q in r.value ==> q in sentencesMap
    {
      if csv.None? {
        return Raised(FileNotFoundError);
      }
      var rows := DropNa(csv.value);
      var questions: seq<string> := [];
      var i := 0;
      while i < |rows|
        invariant 0 <= i <= |rows|
        invariant questions == Questions(rows[..i])
        invariant sentencesMap == Load(old(sentencesMap), rows[..i])
      {
        assert rows[..i + 1][..i] == rows[..i];
        questions := questions + [rows[i].0];
        sentencesMap := sentencesMap[rows[i].0 := rows[i].1];
        i := i + 1;
      }
      assert rows[..i] == rows;
      LoadKeys(old(sentencesMap), rows);
      r := Ok(questions);
    }

    /** Encodes every FAQ question into the index, one vector per entry and in order,
        then writes the index file; the returned name is the file written. */
    method GenerateFaqEmbedding() returns (r: Outcome<string>)
      modifies this`index
      ensures faq.None? ==> r == Raised(TypeError) && index == old(index)
      ensures faq.Some? ==> index == old(index) + faq.value
      ensures faq.Some? && old(index) == [] ==> forall i :: 0 <= i < |faq.value| ==> index[i] == faq.value[i]
      ensures faq.Some? ==> r == if knowledgebase.Some? then Ok(IndexWriteName(knowledgebase.value))
                                 else Raised(AttributeError)
    {
      if faq.None? {
        return Raised(TypeError);
      }
      var questions := faq.value;
      var i := 0;
      while i < |questions|
        invariant 0 <= i <= |questions|
        invariant index == old(index) + questions[..i]
      {
        assert questions[..i + 1] == questions[..i] + [questions[i]];
        index := index + [questions[i]];
        i := i + 1;
      }
      assert questions[..i] == questions;
      if knowledgebase.None? {
        return Raised(AttributeError);
      }
      r := Ok(IndexWriteName(knowledgebase.value));
    }

    /** The retrieval decision for `input`; `search` is the embedding and index oracle,
        consulted with the lower-cased input. */
    method GetAnswerFromEmbedding(input: string, search: string -> Neighbor, threshold: real)
      returns (r: Outcome<Retrieval>)
      ensures r == Retrieve(faq, sentencesMap, search(Lower(input)), threshold, activeLearnerThreshold)
    {
      var hit := search(Lower(input));
      r := Retrieve(faq, sentencesMap, hit, threshold, activeLearnerThreshold);
    }

    method Learn(param: (string, string))
      modifies this`pending
      ensures pending == old(pending) + [param]
    {
      pending := pending + [param];
    }
  }
}
