/** The active-learning consumer (learner.py): a FIFO queue of submitted samples, the
    set of `(question, answer)` pairs seen, a stop flag, and the append-only
    `samples.txt` log. The background thread's loop is modelled one iteration at a
    time by `Step`. */
module ActiveLearning {
  import opened Text

  /** A `(question, answer, knowledgebase_file_path)` tuple; the path may be None. */
  datatype Sample = Sample(question: string, answer: string, path: Option<string>)

  /** How one iteration of the consumer loop ends. */
  datatype StepResult =
    | Stopped                    // the stop flag was seen: the loop exits
    | TimedOut                   // the queue stayed empty for the poll timeout
    | Processed(sample: Sample)  // the oldest sample was taken and logged

  /** `f"{path}"`: a missing path is rendered as `None`. */
  function PathText(path: Option<string>): string
  {
    match path
    case None => "None"
    case Some(p) => p
  }

  /** The two lines `write_sample` appends for one sample. */
  function Record(s: Sample): string
  {
    "'" + s.question + "';'" + s.answer + "';" + PathText(s.path) + "\n" + "\n"
  }

  /** The log written for samples processed in the given order. */
  function Log(samples: seq<Sample>): string
  {
    if samples == [] then "" else Log(samples[..|samples| - 1]) + Record(samples[|samples| - 1])
  }

  /** The `(question, answer)` pairs of the given samples. */
  function Pairs(samples: seq<Sample>): set<(string, string)>
  {
    set s | s in samples :: (s.question, s.answer)
  }

  /** Processing samples one after another writes their records one after another. */
  lemma {:induction false} LogAppend(xs: seq<Sample>, ys: seq<Sample>)
    ensures Log(xs + ys) == Log(xs) + Log(ys)
    decreases |ys|
  {
    if ys == [] {
      assert xs + ys == xs;
    } else {
      var init, last := ys[..|ys| - 1], ys[|ys| - 1];
      calc {
        Log(xs + ys);
        { assert (xs + ys)[..|xs + ys| - 1] == xs + init;
          assert (xs + ys)[|xs + ys| - 1] == last; }
        Log(xs + init) + Record(last);
        { LogAppend(xs, init); }
        (Log(xs) + Log(init)) + Record(last);
        Log(xs) + (Log(init) + Record(last));
        Log(xs) + Log(ys);
      }
    }
  }

  /** Adding one sample adds at most its own pair. */
  lemma PairsAppend(xs: seq<Sample>, s: Sample)
    ensures Pairs(xs + [s]) == Pairs(xs) + {(s.question, s.answer)}
  {
  }

  /** The set of seen pairs never has more members than samples were processed. */
  lemma {:induction false} PairsBound(xs: seq<Sample>)
    ensures |Pairs(xs)| <= |xs|
    decreases |xs|
  {
    if xs != [] {
      var init := xs[..|xs| - 1];
      assert xs == init + [xs[|xs| - 1]];
      PairsAppend(init, xs[|xs| - 1]);
      PairsBound(init);
    }
  }

  // ---------------------------------------------------------------------------
  // Reading a record back
  // ---------------------------------------------------------------------------

  /** Position of the first `c` in `s`, or `|s|` when there is none. */
  function IndexOf(s: string, c: char): (k: nat)
    ensures k <= |s|
    ensures forall j :: 0 <= j < k ==> s[j] != c
    ensures k < |s| ==> s[k] == c
  {
    if s == [] then 0 else if s[0] == c then 0 else 1 + IndexOf(s[1..], c)
  }

  /** In `x + [c] + y` with no `c` in `x`, the first `c` is the one after `x`. */
  lemma IndexOfSplit(x: string, c: char, y: string)
    requires c !in x
    ensures var s := x + [c] + y;
            IndexOf(s, c) == |x| && s[..|x|] == x && s[|x|..] == [c] + y
  {
    var s := x + [c] + y;
    assert s[|x|] == c;
    assert forall j :: 0 <= j < |x| ==> s[j] == x[j];
    assert s[..|x|] == x;
    assert s[|x|..] == [c] + y;
  }

  /** The path line: text up to the first newline, then exactly two newlines. */
  function ParsePath(tail: string): Option<string>
  {
    var k := IndexOf(tail, '\n');
    if tail[k..] != "\n\n" then None else Some(tail[..k])
  }

  /** The answer up to the closing `';`, then the path line. */
  function ParseAnswer(rest: string): Option<(string, string)>
  {
    var j := IndexOf(rest, '\'');
    if j + 2 > |rest| || rest[j..j + 2] != "';" then None
    else
      match ParsePath(rest[j + 2..])
      case None => None
      case Some(path) => Some((rest[..j], path))
  }

  /** The question up to the closing `';'`, then the answer and the path line. */
  function ParseBody(body: string): Option<(string, string, string)>
  {
    var i := IndexOf(body, '\'');
    if i + 3 > |body| || body[i..i + 3] != "';'" then None
    else
      match ParseAnswer(body[i + 3..])
      case None => None
      case Some(ap) => Some((body[..i], ap.0, ap.1))
  }

  /** Splits a record into question, answer and rendered path, or None when the text
      is not of the form `'q';'a';path` followed by two newlines. */
  function ParseRecord(rec: string): Option<(string, string, string)>
  {
    if |rec| == 0 || rec[0] != '\'' then None else ParseBody(rec[1..])
  }

  lemma ParsePathOf(p: string)
    requires '\n' !in p
    ensures ParsePath(p + "\n\n") == Some(p)
  {
    assert p + "\n\n" == p + ['\n'] + "\n";
    IndexOfSplit(p, '\n', "\n");
  }

  lemma ParseAnswerOf(a: string, p: string)
    requires '\'' !in a && '\n' !in p
    ensures ParseAnswer(a + "';" + p + "\n\n") == Some((a, p))
  {
    var line := p + "\n\n";
    var tail := "';" + line;
    var rest := a + tail;
    assert a + "';" + p + "\n\n" == rest;
    assert IndexOf(rest, '\'') == |a| && rest[..|a|] == a by {
      assert rest == a + ['\''] + tail[1..];
      IndexOfSplit(a, '\'', tail[1..]);
    }
    assert rest[|a|..|a| + 2] == "';" && rest[|a| + 2..] == line by {
      assert rest[|a|..] == tail;
      assert tail[..2] == "';" && tail[2..] == line;
    }
    ParsePathOf(p);
  }

  lemma ParseBodyOf(q: string, rest: string)
    requires '\'' !in q && ParseAnswer(rest).Some?
    ensures ParseBody(q + "';'" + rest) == Some((q, ParseAnswer(rest).value.0, ParseAnswer(rest).value.1))
  {
    var tail := "';'" + rest;
    var body := q + tail;
    assert q + "';'" + rest == body;
    assert IndexOf(body, '\'') == |q| && body[..|q|] == q by {
      assert body == q + ['\''] + tail[1..];
      IndexOfSplit(q, '\'', tail[1..]);
    }
    assert body[|q|..|q| + 3] == "';'" && body[|q| + 3..] == rest by {
      assert body[|q|..] == tail;
      assert tail[..3] == "';'" && tail[3..] == rest;
    }
  }

  /** A record gives back its question, answer and path as long as the question and
      the answer hold no single quote and the path holds no newline. */
  lemma RecordRoundTrip(s: Sample)
    requires '\'' !in s.question && '\'' !in s.answer && '\n' !in PathText(s.path)
    ensures ParseRecord(Record(s)) == Some((s.question, s.answer, PathText(s.path)))
  {
    var q, a, p := s.question, s.answer, PathText(s.path);
    var rest := a + "';" + p + "\n\n";
    assert Record(s)[1..] == q + "';'" + rest;
    ParseAnswerOf(a, p);
    ParseBodyOf(q, rest);
  }

  // ---------------------------------------------------------------------------
  // The `Learner` object
  // ---------------------------------------------------------------------------

  class Learner {
    var samples: seq<Sample>                  // the queue, oldest first
    var samplesSet: set<(string, string)>
    var stop: bool
    var written: string                       // what this learner appended to the log file
    const samplesFilename: string
    ghost var submitted: seq<Sample>          // every sample ever queued, in order
    ghost var processed: nat                  // how many of them were taken

    /** The queue holds exactly the submitted samples not yet taken, and the log and
        the seen-set reflect the ones taken, in submission order. */
    ghost predicate Valid()
      reads this
    {
      && processed <= |submitted|
      && samples == submitted[processed..]
      && samplesSet == Pairs(submitted[..processed])
      && written == Log(submitted[..processed])
    }

    constructor ()
      ensures Valid()
      ensures samples == [] && samplesSet == {} && !stop && written == ""
      ensures submitted == [] && processed == 0
      ensures samplesFilename == "samples.txt"
    {
      samples := [];
      samplesSet := {};
      stop := false;
      written := "";
      samplesFilename := "samples.txt";
      submitted := [];
      processed := 0;
    }

    /** Queues a sample at the back; nothing else changes. */
    method AddSample(s: Sample)
      requires Valid()
      modifies this
      ensures Valid()
      ensures samples == old(samples) + [s] && submitted == old(submitted) + [s]
      ensures samplesSet == old(samplesSet) && stop == old(stop) && written == old(written)
      ensures processed == old(processed)
    {
      samples := samples + [s];
      submitted := submitted + [s];
      assert submitted[..processed] == old(submitted)[..processed];
    }

    /** One iteration of the consumer loop. A stop request is seen only here, at the
        top of the iteration. A sample already in the seen-set is logged again. */
    method Step() returns (r: StepResult)
      requires Valid()
      modifies this
      ensures Valid()
      ensures submitted == old(submitted) && stop == old(stop)
      ensures old(stop) ==> r == Stopped && unchanged(this)
      ensures !old(stop) && old(samples) == [] ==> r == TimedOut && unchanged(this)
      ensures !old(stop) && old(samples) != [] ==>
                && r == Processed(old(samples)[0])
                && samples == old(samples)[1..]
                && samplesSet == old(samplesSet) + {(r.sample.question, r.sample.answer)}
                && written == old(written) + Record(r.sample)
                && processed == old(processed) + 1
    {
      if stop {
        return Stopped;
      }
      if samples == [] {
        return TimedOut;
      }
      var s := samples[0];
      samples := samples[1..];
      assert submitted[..processed + 1] == submitted[..processed] + [s];
      PairsAppend(submitted[..processed], s);
      samplesSet := samplesSet + {(s.question, s.answer)};
      WriteSample(s.question, s.answer, s.path);
      processed := processed + 1;
      r := Processed(s);
    }

    method StopActiveLearning()
      modifies this`stop
      ensures stop
    {
      stop := true;
    }

    /** Appends the record of one sample to the log. */
    method WriteSample(question: string, answer: string, path: Option<string>)
      modifies this`written
      ensures written == old(written) + Record(Sample(question, answer, path))
    {
      written := written + Record(Sample(question, answer, path));
    }
  }

  /** The seen-set only grows with processing and is never larger than the number of
      samples processed. */
  lemma SeenSetBounded(l: Learner)
    requires l.Valid()
    ensures |l.samplesSet| <= l.processed
  {
    PairsBound(l.submitted[..l.processed]);
  }

  /** The log lists the records of the first `processed` submissions, oldest first:
      for any split of them the earlier part is written first. */
  lemma LogInSubmissionOrder(l: Learner, k: nat)
    requires l.Valid() && k <= l.processed
    ensures l.written == Log(l.submitted[..k]) + Log(l.submitted[k..l.processed])
  {
    assert l.submitted[..l.processed] == l.submitted[..k] + l.submitted[k..l.processed];
    LogAppend(l.submitted[..k], l.submitted[k..l.processed]);
  }
}
