/**
 * The vote tally kept beside the mail relay: after a message has been sent,
 * the handler looks for the keywords JOPI and DOKI in it, increments at most
 * one counter of the stored record and writes the record back; `/stats`
 * reads the same record.
 *
 * The backing file is an optional piece of content. Its content is either a
 * JSON object whose values are integer counters, or something that cannot be
 * read or parsed.
 */
module Votes {
  import opened Wrappers
  import opened Text

  /** The two keys a vote can go to. */
  datatype Candidate = Jopi | Doki {
    /** The key of the stored record that counts this candidate. */
    function Key(): string
    {
      match this
      case Jopi => "jopi"
      case Doki => "doki"
    }

    /** The word searched for in the upper-cased message. */
    function Keyword(): string
    {
      match this
      case Jopi => "JOPI"
      case Doki => "DOKI"
    }
  }

  /** A parsed JSON object with integer counters; keys other than the two candidates are carried along. */
  type Record = map<string, int>

  /** The record used when no file exists. */
  const Zeros: Record := map["jopi" := 0, "doki" := 0]

  datatype FileContent =
    | Json(record: Record)
    | Unreadable(reason: string)   // the read failed or the text is not valid JSON

  /** Every counter of the record is non-negative. */
  predicate NonNegative(rec: Record)
  {
    forall k :: k in rec ==> rec[k] >= 0
  }

  /** A file that is absent or holds a record with non-negative counters. */
  predicate WellFormed(file: Option<FileContent>)
  {
    match file
    case None => true
    case Some(Json(rec)) => NonNegative(rec)
    case Some(Unreadable(_)) => false
  }

  /** The record the handlers start from: zeros without a file, the parsed object, or the read/parse error. */
  function Load(file: Option<FileContent>): (r: Result<Record, string>)
    ensures r.Failure? <==> file.Some? && file.value.Unreadable?
    ensures file.None? ==> r.Success? && r.value.Keys == {"jopi", "doki"} && r.value["jopi"] == 0 && r.value["doki"] == 0
    ensures file.Some? && file.value.Json? ==> r == Success(file.value.record)
    ensures r.Failure? ==> r.error == file.value.reason
  {
    match file
    case None => Success(Zeros)
    case Some(Json(rec)) => Success(rec)
    case Some(Unreadable(reason)) => Failure(reason)
  }

  /**
   * The key chosen for a message: `jopi` when the upper-cased message contains
   * JOPI, otherwise `doki` when it contains DOKI, otherwise none.
   */
  function Choice(message: string): (c: Option<Candidate>)
    ensures c == Some(Jopi) <==> Occurs(Upper(message), "JOPI")
    ensures c == Some(Doki) <==> !Occurs(Upper(message), "JOPI") && Occurs(Upper(message), "DOKI")
    ensures c == None <==> !Occurs(Upper(message), "JOPI") && !Occurs(Upper(message), "DOKI")
  {
    var u := Upper(message);
    IncludesIff(u, "JOPI");
    IncludesIff(u, "DOKI");
    if Includes(u, "JOPI") then Some(Jopi)
    else if Includes(u, "DOKI") then Some(Doki)
    else None
  }

  /** `data[choice]++`: the chosen counter goes up by one and nothing else changes. */
  function Bump(rec: Record, key: string): (r: Record)
    requires key in rec
    ensures r.Keys == rec.Keys
    ensures r[key] == rec[key] + 1
    ensures forall k :: k in rec && k != key ==> r[k] == rec[k]
  {
    rec[key := rec[key] + 1]
  }

  /**
   * What `writeFileSync` does with the file: write it completely, fail before
   * touching it (the open is refused), or fail after truncating or creating it,
   * which leaves a file that no longer parses.
   */
  datatype WriteResult =
    | Written
    | RefusedAtOpen
    | FailedAfterTruncate(parseError: string)   // the error a later parse of the partial file reports

  /** What the tally step reports; every kind is absorbed by the handler. */
  datatype TallyOutcome =
    | Updated(record: Record)   // the incremented record was written
    | Unchanged                 // no keyword, or the chosen key is not in the record
    | StorageFailed             // reading, parsing or writing the file failed

  datatype TallyStep = TallyStep(file: Option<FileContent>, outcome: TallyOutcome)

  /** The file after a write of `rec` with the given result. */
  function AfterWrite(file: Option<FileContent>, rec: Record, write: WriteResult): Option<FileContent>
  {
    match write
    case Written => Some(Json(rec))
    case RefusedAtOpen => file
    case FailedAfterTruncate(parseError) => Some(Unreadable(parseError))
  }

  /**
   * One read-modify-write of the tally for a sent message: the backing file
   * after the step and what the step reports. `write` is what a write to the
   * file would do.
   */
  function Tally(file: Option<FileContent>, message: string, write: WriteResult): (step: TallyStep)
    ensures step.outcome.Updated? ==> step.file == Some(Json(step.outcome.record)) && write == Written
    ensures step.outcome.Unchanged? ==> step.file == file
    ensures Load(file).Failure? ==> step == TallyStep(file, StorageFailed)
  {
    match Load(file)
    case Failure(_) => TallyStep(file, StorageFailed)
    case Success(data) =>
      var choice := Choice(message);
      if choice.Some? && choice.value.Key() in data then
        var next := Bump(data, choice.value.Key());
        var after := AfterWrite(file, next, write);
        if write.Written? then TallyStep(after, Updated(next))
        else TallyStep(after, StorageFailed)
      else TallyStep(file, Unchanged)
  }

  /** The step tries to write: the file loads, a candidate is chosen and its key is in the loaded record. */
  predicate Attempts(file: Option<FileContent>, message: string)
  {
    Load(file).Success? && Choice(message).Some? && Choice(message).value.Key() in Load(file).value
  }

  /** A counted vote: the chosen counter is one higher, every other counter and the set of keys are as loaded. */
  lemma TallyCountsOneVote(file: Option<FileContent>, message: string)
    requires Attempts(file, message)
    ensures var before := Load(file).value;
            var key := Choice(message).value.Key();
            Tally(file, message, Written).file.Some? &&
            Tally(file, message, Written).file.value.Json? &&
            var after := Tally(file, message, Written).file.value.record;
            after.Keys == before.Keys &&
            after[key] == before[key] + 1 &&
            (forall k :: k in before && k != key ==> after[k] == before[k])
  {
  }

  /**
   * The step reports an update exactly when it attempts a write that succeeds;
   * the file changes exactly when it attempts a write that gets past the open,
   * and a write that fails after truncating leaves an unreadable file.
   */
  lemma {:induction false} TallyWritesIffAttempted(file: Option<FileContent>, message: string, write: WriteResult)
    ensures Tally(file, message, write).outcome.Updated? <==> Attempts(file, message) && write.Written?
    ensures Tally(file, message, write).file != file <==> Attempts(file, message) && !write.RefusedAtOpen?
    ensures Attempts(file, message) && write.FailedAfterTruncate? ==>
              Tally(file, message, write).file == Some(Unreadable(write.parseError))
  {
    if Attempts(file, message) && write.Written? {
      var key := Choice(message).value.Key();
      var before := Load(file).value;
      var after := Bump(before, key);
      if file.Some? {
        assert after[key] != before[key];
        assert after != before;
      }
    }
  }

  /** JOPI wins over DOKI when the message mentions both. */
  lemma JopiTakesPriority(message: string)
    requires Occurs(Upper(message), "JOPI") && Occurs(Upper(message), "DOKI")
    ensures Choice(message) == Some(Jopi)
  {
  }

  /** The keyword test ignores letter case: lower-casing or upper-casing the message does not change the choice. */
  lemma {:induction false} ChoiceIgnoresCase(message: string)
    ensures Choice(Lower(message)) == Choice(message)
    ensures Choice(Upper(message)) == Choice(message)
  {
    UpperForgetsCase(message);
  }

  /** A keyword spelled in any case at position i selects its candidate, subject to JOPI's priority. */
  lemma {:induction false} KeywordInAnyCase(message: string, c: Candidate, i: int)
    requires 0 <= i && i + 4 <= |message|
    requires Upper(message[i..i + 4]) == c.Keyword()
    ensures Choice(message).Some?
    ensures c == Jopi ==> Choice(message) == Some(Jopi)
  {
    UpperSlice(message, i, i + 4);
    assert OccursAt(Upper(message), c.Keyword(), i);
  }

  /** A keyword whose first letter appears nowhere in the message, in either case, cannot occur in it. */
  lemma LetterMissing(message: string, keyword: string)
    requires keyword != []
    requires forall k :: 0 <= k < |message| ==> UpperChar(message[k]) != keyword[0]
    ensures !Occurs(Upper(message), keyword)
  {
  }

  /** A message with DOKI in any case at position i and no letter J is a vote for DOKI. */
  lemma {:induction false} DokiWithoutJ(message: string, i: int)
    requires 0 <= i && i + 4 <= |message|
    requires Upper(message[i..i + 4]) == "DOKI"
    requires forall k :: 0 <= k < |message| ==> UpperChar(message[k]) != 'J'
    ensures Choice(message) == Some(Doki)
  {
    KeywordInAnyCase(message, Doki, i);
    LetterMissing(message, "JOPI");
  }

  /**
   * Without a file the step starts from zeros: a counted vote writes a record
   * with one vote for the choice and none for the other; a refused write
   * leaves no file, and a write that fails after creating it leaves an
   * unreadable one.
   */
  lemma TallyFromNoFile(message: string, c: Candidate, parseError: string)
    requires Choice(message) == Some(c)
    ensures Tally(None, message, Written) == TallyStep(Some(Json(Zeros[c.Key() := 1])), Updated(Zeros[c.Key() := 1]))
    ensures Tally(None, message, RefusedAtOpen) == TallyStep(None, StorageFailed)
    ensures Tally(None, message, FailedAfterTruncate(parseError)) == TallyStep(Some(Unreadable(parseError)), StorageFailed)
  {
    assert c.Key() in Zeros;
  }

  /**
   * Non-negative counters stay non-negative and none of them decreases, unless
   * a write fails after truncating, which leaves an unreadable file.
   */
  lemma {:induction false} TallyKeepsCounters(file: Option<FileContent>, message: string, write: WriteResult)
    requires WellFormed(file)
    ensures var after := Tally(file, message, write).file;
            WellFormed(after) || (write.FailedAfterTruncate? && after == Some(Unreadable(write.parseError)))
    ensures var after := Tally(file, message, write).file;
            Load(after).Success? ==>
              var before := Load(file).value;
              Load(after).value.Keys == before.Keys && forall k :: k in before ==> before[k] <= Load(after).value[k]
  {
    if Attempts(file, message) {
      TallyCountsOneVote(file, message);
    }
  }

  /** Once the file is unreadable, every later tally step fails and leaves it as it is. */
  lemma UnreadableFileBlocksTally(reason: string, message: string, write: WriteResult)
    ensures Tally(Some(Unreadable(reason)), message, write) == TallyStep(Some(Unreadable(reason)), StorageFailed)
  {
  }

  /** What `/stats` answers: the counters, and the error text when the file could not be read. */
  datatype StatsReply = StatsReply(counts: Record, error: Option<string>)

  /** The file backing the tally, and what writing to it does. */
  class CounterStore {
    var file: Option<FileContent>
    const write: WriteResult

    constructor (initial: Option<FileContent>, write: WriteResult)
      ensures file == initial && this.write == write
    {
      file := initial;
      this.write := write;
    }

    /** The tally update run after a successful send; every storage failure is swallowed and reported. */
    method RecordVote(message: string) returns (outcome: TallyOutcome)
      modifies this
      ensures TallyStep(file, outcome) == Tally(old(file), message, write)
    {
      var data := Zeros;
      if file.Some? {
        match file.value
        case Unreadable(_) =>
          return StorageFailed;
        case Json(rec) =>
          data := rec;
      }
      var choice := Choice(message);
      if choice.Some? && choice.value.Key() in data {
        var key := choice.value.Key();
        data := data[key := data[key] + 1];
        match write
        case RefusedAtOpen =>
          return StorageFailed;
        case FailedAfterTruncate(parseError) =>
          file := Some(Unreadable(parseError));
          return StorageFailed;
        case Written =>
          file := Some(Json(data));
          return Updated(data);
      }
      return Unchanged;
    }

    /** The `/stats` handler: the stored record, zeros when there is no file, zeros and the error when it cannot be read. */
    method Stats() returns (reply: StatsReply)
      ensures file.None? ==> reply == StatsReply(Zeros, None)
      ensures file.Some? && file.value.Json? ==> reply == StatsReply(file.value.record, None)
      ensures file.Some? && file.value.Unreadable? ==> reply == StatsReply(Zeros, Some(file.value.reason))
    {
      if file.None? {
        return StatsReply(Zeros, None);
      }
      match file.value
      case Json(rec) =>
        reply := StatsReply(rec, None);
      case Unreadable(reason) =>
        reply := StatsReply(Zeros, Some(reason));
    }
  }
}
