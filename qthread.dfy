/**
 * `ScraperThread`: a worker that holds a legacy `MovieScraper` and a list
 * of `(method name, argument)` steps, and runs the steps in order, sending
 * one signal: finished, or failed with the message of the first exception.
 */
module ScraperThreads {
  import opened Wrappers
  import opened Text
  import opened MovieModel
  import DataRetrieve
  import LegacyRetrieve

  /** One positional argument of `define_thread_settings`. */
  datatype ThreadArg =
    | ScraperArg(scraper: DataRetrieve.Scraper)   // a `MovieScraper` instance
    | StepArg(name: String, arg: PyValue)         // a `(method, argument)` tuple
    | OtherArg                                    // anything else, which cannot be indexed

  /** A step the thread keeps: a method name and the argument to call it with. */
  datatype Step = Step(name: String, arg: PyValue)

  /** What `define_thread_settings` raises. */
  datatype ThreadError = ValueError | TypeError

  /** The signal `run` emits. */
  datatype Signal = Finished | Failed(message: String)

  /**
   * A call of a scraper method by name, with an argument or without one:
   * the message of the exception it raises, or `None` when it returns.
   */
  type Call = (String, Option<PyValue>) -> Option<String>

  const NotDefined: String := "MovieScraper object is not defined."

  /**
   * The attribute names of a legacy `MovieScraper` instance: its own
   * methods and attributes and those it inherits from `Movie`.
   */
  const ScraperAttributes: set<String> := {
    "sources_websites", "imp_suffixes", "imp_sanitized_title", "generate_imp_links",
    "generate_movie_pdb_link", "generate_cnm_link", "_write_img_on_disk", "get_actors",
    "download_poster", "download_cnm_poster", "download_info",
    "title", "year", "path", "rating", "actors", "aesthetic_rating", "check_path",
    "check_rating", "check_title", "check_year", "data_file", "genre", "load_data_file",
    "no_errors", "official_title", "remove_cache", "rename", "set_default_poster",
    "storage", "thumb"}

  /** `hasattr(obj, name)`; `None` has none of these names. */
  predicate HasAttr(obj: Option<DataRetrieve.Scraper>, name: String) {
    obj.Some? && name in ScraperAttributes
  }

  /** `args[0] if isinstance(args[0], MovieScraper) else None`. */
  function ScraperOf(a: ThreadArg): (r: Option<DataRetrieve.Scraper>)
    ensures r.Some? <==> a.ScraperArg?
  {
    if a.ScraperArg? then Some(a.scraper) else None
  }

  /**
   * `list(filter(lambda x: hasattr(obj, x[0]), rest))`: the tuples whose
   * name the object has, in order; indexing an argument that is not a
   * tuple raises `TypeError`.
   */
  function Filtered(obj: Option<DataRetrieve.Scraper>, rest: seq<ThreadArg>): (r: Result<seq<Step>, ThreadError>)
    ensures r.Err? <==> exists i :: 0 <= i < |rest| && !rest[i].StepArg?
    ensures r.Err? ==> r.error == TypeError
    ensures r.Ok? ==> forall s :: s in r.value <==> StepArg(s.name, s.arg) in rest && HasAttr(obj, s.name)
    ensures r.Ok? ==> LegacyRetrieve.SubsequenceOf(r.value, seq(|rest|, i requires 0 <= i < |rest| => Step(rest[i].name, rest[i].arg)))
  {
    if rest == [] then Ok([])
    else if !rest[0].StepArg? then Err(TypeError)
    else
      var tail := Filtered(obj, rest[1..]);
      assert forall i :: 1 <= i < |rest| ==> rest[i] == rest[1..][i - 1];
      assert forall x :: x in rest <==> x == rest[0] || x in rest[1..];
      if tail.Err? then tail
      else
        var head := Step(rest[0].name, rest[0].arg);
        var all := seq(|rest|, i requires 0 <= i < |rest| => Step(rest[i].name, rest[i].arg));
        assert all == [head] + seq(|rest| - 1, i requires 0 <= i < |rest| - 1 => Step(rest[1..][i].name, rest[1..][i].arg));
        if HasAttr(obj, rest[0].name) then Ok([head] + tail.value) else tail
  }

  /**
   * The thread's settings after `define_thread_settings(*args)` from
   * `before`, and what it raised. Fewer than two arguments raise
   * `ValueError` and change nothing; otherwise the scraper is replaced
   * first, so a `TypeError` from the filter leaves the new scraper with the
   * old steps.
   */
  function Defined(args: seq<ThreadArg>, before: (Option<DataRetrieve.Scraper>, seq<Step>))
    : (r: ((Option<DataRetrieve.Scraper>, seq<Step>), Option<ThreadError>))
    ensures |args| < 2 ==> r == (before, Some(ValueError))
    ensures |args| >= 2 ==> r.0.0 == ScraperOf(args[0])
    ensures |args| >= 2 ==> (r.1.None? <==> forall i :: 1 <= i < |args| ==> args[i].StepArg?)
    ensures |args| >= 2 && r.1.Some? ==> r.1 == Some(TypeError) && r.0.1 == before.1
    ensures r.1.None? ==> forall s :: s in r.0.1 <==> StepArg(s.name, s.arg) in args[1..] && HasAttr(r.0.0, s.name)
  {
    if |args| < 2 then (before, Some(ValueError))
    else
      var obj := ScraperOf(args[0]);
      assert forall i :: 1 <= i < |args| ==> args[i] == args[1..][i - 1];
      match Filtered(obj, args[1..])
      case Err(e) => ((obj, before.1), Some(e))
      case Ok(steps) => ((obj, steps), None)
  }

  /** `Some(arg)` for a call with its argument, `None` for a call without one. */
  function CallArg(a: PyValue): Option<PyValue> {
    if a.PyNone? then None else Some(a)
  }

  /** The index of the first step whose call raises, or `|steps|` when none does. */
  function FirstRaise(steps: seq<Step>, call: Call): (k: nat)
    ensures k <= |steps|
    ensures forall j :: 0 <= j < k ==> call(steps[j].name, CallArg(steps[j].arg)).None?
    ensures k < |steps| ==> call(steps[k].name, CallArg(steps[k].arg)).Some?
  {
    if steps == [] || call(steps[0].name, CallArg(steps[0].arg)).Some? then 0
    else 1 + FirstRaise(steps[1..], call)
  }

  /** The calls `run` makes, in order. */
  function Calls(steps: seq<Step>): (cs: seq<(String, Option<PyValue>)>)
    ensures |cs| == |steps|
    ensures forall i :: 0 <= i < |steps| ==> cs[i] == (steps[i].name, CallArg(steps[i].arg))
  {
    seq(|steps|, i requires 0 <= i < |steps| => (steps[i].name, CallArg(steps[i].arg)))
  }

  /**
   * What `run` does: without a scraper it fails at once; otherwise it
   * calls the steps in order, stopping at the first exception, whose
   * message it sends.
   */
  function Outcome(obj: Option<DataRetrieve.Scraper>, steps: seq<Step>, call: Call): (Signal, seq<(String, Option<PyValue>)>) {
    if obj.None? then (Failed(NotDefined), [])
    else
      var k := FirstRaise(steps, call);
      if k < |steps| then (Failed(call(steps[k].name, CallArg(steps[k].arg)).value), Calls(steps[..k + 1]))
      else (Finished, Calls(steps))
  }

  /**
   * Exactly one signal: `Finished` when there is a scraper and no step
   * raises, and then every step was called once, in order; otherwise the
   * calls made are a prefix of the steps and the message is the missing
   * scraper's or the raising call's.
   */
  lemma OutcomeSignal(obj: Option<DataRetrieve.Scraper>, steps: seq<Step>, call: Call)
    ensures var (signal, calls) := Outcome(obj, steps, call);
      (signal.Finished? <==> obj.Some? && forall i :: 0 <= i < |steps| ==> call(steps[i].name, CallArg(steps[i].arg)).None?)
      && (signal.Finished? ==> calls == Calls(steps))
      && (|calls| <= |steps| && calls == Calls(steps)[..|calls|])
      && (signal.Failed? && obj.Some? ==> |calls| > 0 && Some(signal.message) == call(calls[|calls| - 1].0, calls[|calls| - 1].1))
  {
    var (signal, calls) := Outcome(obj, steps, call);
    if obj.Some? {
      var k := FirstRaise(steps, call);
      if k < |steps| {
        assert calls == Calls(steps)[..k + 1];
      }
    }
  }

  class ScraperThread {
    var scraper: Option<DataRetrieve.Scraper>
    var methods: seq<Step>

    /** A new thread has no scraper and no steps. */
    constructor()
      ensures scraper == None && methods == []
    {
      scraper := None;
      methods := [];
    }

    /** `define_thread_settings(*args)`. */
    method Define(args: seq<ThreadArg>) returns (raised: Option<ThreadError>)
      modifies this
      ensures ((scraper, methods), raised) == Defined(args, (old(scraper), old(methods)))
    {
      if |args| < 2 {
        return Some(ValueError);
      }
      scraper := ScraperOf(args[0]);
      var kept := Filtered(scraper, args[1..]);
      if kept.Err? {
        return Some(kept.error);
      }
      methods := kept.value;
      return None;
    }

    /** `run`: the signal it emits and the calls it makes. */
    method Run(call: Call) returns (signal: Signal, calls: seq<(String, Option<PyValue>)>)
      ensures (signal, calls) == Outcome(scraper, methods, call)
    {
      if scraper.None? {
        return Failed(NotDefined), [];
      }
      calls := [];
      var i := 0;
      while i < |methods|
        invariant i <= |methods|
        invariant forall j :: 0 <= j < i ==> call(methods[j].name, CallArg(methods[j].arg)).None?
        invariant calls == Calls(methods[..i])
      {
        var argument := CallArg(methods[i].arg);
        var error := call(methods[i].name, argument);
        calls := calls + [(methods[i].name, argument)];
        assert calls == Calls(methods[..i + 1]);
        if error.Some? {
          assert FirstRaise(methods, call) == i by {
            FirstRaiseAt(methods, call, i);
          }
          return Failed(error.value), calls;
        }
        i := i + 1;
      }
      FirstRaiseAt(methods, call, i);
      assert methods[..i] == methods;
      return Finished, calls;
    }
  }

  /** A loop that passed over the first `i` steps and stops at step `i` stops where `FirstRaise` says. */
  lemma {:induction false} FirstRaiseAt(steps: seq<Step>, call: Call, i: nat)
    requires i <= |steps| && forall j :: 0 <= j < i ==> call(steps[j].name, CallArg(steps[j].arg)).None?
    requires i < |steps| ==> call(steps[i].name, CallArg(steps[i].arg)).Some?
    ensures FirstRaise(steps, call) == i
  {
    if i > 0 {
      FirstRaiseAt(steps[1..], call, i - 1);
    }
  }

  /** A thread given no scraper, or never configured, fails with the fixed message and calls nothing. */
  lemma NoScraperFails(args: seq<ThreadArg>, before: (Option<DataRetrieve.Scraper>, seq<Step>), call: Call)
    requires |args| >= 2 && !args[0].ScraperArg?
    ensures var after := Defined(args, before).0;
      Outcome(after.0, after.1, call) == (Failed(NotDefined), [])
  {
  }
}
