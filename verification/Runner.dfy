/** The runner: one triage phase, then one fresh episode per shortlisted rule, stopping at the first error. */
module Runner {
  import opened Text
  import opened Json
  import opened Contract
  import opened Triage
  import opened TriageAgreement

  /** What a phase left behind; an exception of the executor is an error with no messages. */
  datatype PhaseRun = PhaseRun(error: Option<string>, ledger: Fields, messages: seq<Value>, tokens: real, usage: Value)

  datatype TriageRun = TriageRun(phase: PhaseRun, shortlist: Option<seq<Entry>>)

  /** What does not change during a run. */
  datatype Setup = Setup(token: bool, model: string, size: nat, metadata: Fields)

  /** Python's `if phase.error`: an empty message is no error. */
  predicate Erred(p: PhaseRun) { p.error.Some? && p.error.value != "" }

  // ---------------------------------------------------------------- records and results

  /** The first attempt whose `accepted` is truthy. */
  function AcceptedIn(attempts: seq<Value>): Option<Fields> {
    if attempts == [] then None
    else if attempts[0].Obj? && Truthy(Get(attempts[0].fields, KAccepted)) then Some(attempts[0].fields)
    else AcceptedIn(attempts[1..])
  }

  function Record(index: nat, entry: Entry, p: PhaseRun): Value {
    var accepted := AcceptedIn(Items(Get(p.ledger, KSubmit)));
    Obj(map[KIndex := Int(index), KRule := Str(entry.rule), KHypothesis := Str(entry.hypothesis),
            KStatus := Str(if Erred(p) then "run_error" else if accepted.Some? then "bug_found" else "completed"),
            KAcceptedSubmitAttempt := if accepted.Some? then Get(accepted.value, KAttempt) else Null,
            KLedger := Obj(p.ledger), KMessages := List(p.messages), KOther("tokens_k") := Float(p.tokens),
            KOther("usage") := p.usage])
  }

  /** The result before the caller's metadata is laid over it. */
  function BaseResult(s: Setup, triage: TriageRun, episodes: seq<Value>, runError: Option<string>): Fields {
    var base := map[
      KModel := Str(s.model), KStatus := Str(if runError.Some? then "run_error" else "completed"),
      KRankable := Bool(s.token && runError.None? && |episodes| == s.size),
      KShortlist := if triage.shortlist.Some? && triage.shortlist.value != [] then EntriesJson(triage.shortlist.value) else Null,
      KTriage := Obj(map[KLedger := Obj(triage.phase.ledger), KMessages := List(triage.phase.messages),
                         KOther("tokens_k") := Float(triage.phase.tokens), KOther("usage") := triage.phase.usage]),
      KEpisodes := List(episodes)];
    if runError.Some? then base[KRunError := Str(runError.value)] else base
  }

  /** `_result`. */
  function Result(s: Setup, triage: TriageRun, episodes: seq<Value>, runError: Option<string>): Fields {
    BaseResult(s, triage, episodes, runError) + s.metadata
  }

  function EpisodeError(index: nat, entry: Entry, p: PhaseRun): string {
    "episode " + Decimal(index) + " (" + entry.rule + ") infrastructure error: " + if p.error.Some? then p.error.value else ""
  }

  function Incomplete(index: nat, total: nat): string {
    "run incomplete after episode " + Decimal(index) + "/" + Decimal(total)
  }

  // ---------------------------------------------------------------- the run

  /** How many episodes are recorded: up to and including the first that erred. */
  function Stop(entries: seq<Entry>, execute: (nat, Entry) -> PhaseRun, from: nat): (n: nat)
    requires from <= |entries|
    ensures from <= n <= |entries|
    ensures forall i: nat :: from <= i < n - 1 ==> !Erred(execute(i + 1, entries[i]))
    ensures n < |entries| ==> n > from && Erred(execute(n, entries[n - 1]))
    decreases |entries| - from
  {
    if from == |entries| then from
    else if Erred(execute(from + 1, entries[from])) then from + 1
    else Stop(entries, execute, from + 1)
  }

  /** The records of the first `n` episodes, in order. */
  function Records(entries: seq<Entry>, execute: (nat, Entry) -> PhaseRun, n: nat): seq<Value>
    requires n <= |entries|
  {
    if n == 0 then [] else Records(entries, execute, n - 1) + [Record(n, entries[n - 1], execute(n, entries[n - 1]))]
  }

  /** The error of the last recorded episode, if it erred. */
  function LastError(entries: seq<Entry>, execute: (nat, Entry) -> PhaseRun, n: nat): Option<string>
    requires n <= |entries|
  {
    if n > 0 && Erred(execute(n, entries[n - 1])) then Some(EpisodeError(n, entries[n - 1], execute(n, entries[n - 1]))) else None
  }

  /** What a run returns. */
  function RunResult(s: Setup, triage: TriageRun, execute: (nat, Entry) -> PhaseRun): Fields {
    if Erred(triage.phase) then Result(s, triage, [], Some("triage infrastructure error: " + triage.phase.error.value))
    else if triage.shortlist.None? then Result(s, triage, [], Some("triage ended without a valid frozen Top50"))
    else
      var entries := triage.shortlist.value;
      var n := Stop(entries, execute, 0);
      Result(s, triage, Records(entries, execute, n), LastError(entries, execute, n))
  }

  function Checkpoint(s: Setup, triage: TriageRun, execute: (nat, Entry) -> PhaseRun, n: nat): Fields
    requires triage.shortlist.Some? && n <= |triage.shortlist.value|
  {
    Result(s, triage, Records(triage.shortlist.value, execute, n), Some(Incomplete(n, |triage.shortlist.value|)))
  }

  lemma StopUnfolds(entries: seq<Entry>, execute: (nat, Entry) -> PhaseRun, from: nat)
    requires from <= |entries|
    ensures from == |entries| ==> Stop(entries, execute, from) == from
    ensures from < |entries| ==>
      Stop(entries, execute, from)
        == if Erred(execute(from + 1, entries[from])) then from + 1 else Stop(entries, execute, from + 1)
  {
  }

  lemma RecordsUnfold(entries: seq<Entry>, execute: (nat, Entry) -> PhaseRun, n: nat)
    requires n <= |entries|
    ensures Records(entries, execute, n)
      == if n == 0 then [] else Records(entries, execute, n - 1) + [Record(n, entries[n - 1], execute(n, entries[n - 1]))]
  {
  }

  /** How many checkpoints a run persists: one for every recorded episode that did not err. */
  function Checkpoints(triage: TriageRun, execute: (nat, Entry) -> PhaseRun): nat {
    if Erred(triage.phase) || triage.shortlist.None? then 0
    else
      var entries := triage.shortlist.value;
      var n := Stop(entries, execute, 0);
      if n > 0 && Erred(execute(n, entries[n - 1])) then n - 1 else n
  }

  /** `run`: what is persisted is the checkpoints, in order, and then the result. */
  method Run(s: Setup, triage: TriageRun, execute: (nat, Entry) -> PhaseRun) returns (result: Fields, persisted: seq<Fields>)
    ensures result == RunResult(s, triage, execute)
    ensures persisted != [] && persisted[|persisted| - 1] == result
    ensures |persisted| == Checkpoints(triage, execute) + 1
    ensures triage.shortlist.Some? ==> Checkpoints(triage, execute) <= |triage.shortlist.value|
    ensures triage.shortlist.Some? ==>
      forall k :: 0 <= k < Checkpoints(triage, execute) ==> persisted[k] == Checkpoint(s, triage, execute, k + 1)
  {
    hide Result, Record, EpisodeError, Incomplete;
    if Erred(triage.phase) {
      result := Result(s, triage, [], Some("triage infrastructure error: " + triage.phase.error.value));
      return result, [result];
    }
    if triage.shortlist.None? {
      result := Result(s, triage, [], Some("triage ended without a valid frozen Top50"));
      return result, [result];
    }
    hide Erred, Stop, Records;
    var episodes, runError, checkpoints := RunEpisodes(s, triage, execute);
    result := Result(s, triage, episodes, runError);
    persisted := checkpoints + [result];
  }

  /** The loop over the shortlist. */
  method RunEpisodes(s: Setup, triage: TriageRun, execute: (nat, Entry) -> PhaseRun)
    returns (episodes: seq<Value>, runError: Option<string>, persisted: seq<Fields>)
    requires triage.shortlist.Some?
    ensures var entries := triage.shortlist.value; var n := Stop(entries, execute, 0);
      && episodes == Records(entries, execute, n) && runError == LastError(entries, execute, n)
      && |persisted| == n - (if runError.Some? then 1 else 0)
      && forall k :: 0 <= k < |persisted| ==> persisted[k] == Checkpoint(s, triage, execute, k + 1)
  {
    hide Result, Record, EpisodeError, Incomplete, Erred, Stop, Records;
    var entries := triage.shortlist.value;
    RecordsUnfold(entries, execute, 0);
    episodes, runError, persisted := [], None, [];
    var i := 0;
    while i < |entries|
      invariant 0 <= i <= |entries| && episodes == Records(entries, execute, i) && runError == None
      invariant i > 0 ==> !Erred(execute(i, entries[i - 1]))
      invariant Stop(entries, execute, 0) == Stop(entries, execute, i)
      invariant |persisted| == i && forall k :: 0 <= k < i ==> persisted[k] == Checkpoint(s, triage, execute, k + 1)
    {
      StopUnfolds(entries, execute, i);
      RecordsUnfold(entries, execute, i + 1);
      var phase := execute(i + 1, entries[i]);
      episodes := episodes + [Record(i + 1, entries[i], phase)];
      i := i + 1;
      if Erred(phase) {
        runError := Some(EpisodeError(i, entries[i - 1], phase));
        return;
      }
      persisted := persisted + [Result(s, triage, episodes, Some(Incomplete(i, |entries|)))];
    }
    StopUnfolds(entries, execute, i);
  }

  // ---------------------------------------------------------------- fail-stop

  /** Metadata is laid over the runner's own fields. */
  function Over(metadata: Fields, key: Key, value: Value): Value {
    if key in metadata then metadata[key] else value
  }

  lemma ResultReads(s: Setup, triage: TriageRun, episodes: seq<Value>, runError: Option<string>)
    ensures var r := Result(s, triage, episodes, runError);
      && Get(r, KStatus) == Over(s.metadata, KStatus, Str(if runError.Some? then "run_error" else "completed"))
      && Get(r, KRankable) == Over(s.metadata, KRankable, Bool(s.token && runError.None? && |episodes| == s.size))
      && Get(r, KEpisodes) == Over(s.metadata, KEpisodes, List(episodes))
      && Get(r, KModel) == Over(s.metadata, KModel, Str(s.model))
      && Get(r, KRunError) == Over(s.metadata, KRunError, if runError.Some? then Str(runError.value) else Null)
      && (KTriage !in s.metadata ==>
            Get(r, KTriage).Obj? && Get(Get(r, KTriage).fields, KLedger) == Obj(triage.phase.ledger))
      && Get(r, KShortlist) == Over(s.metadata, KShortlist,
           if triage.shortlist.Some? && triage.shortlist.value != [] then EntriesJson(triage.shortlist.value) else Null)
  {
    hide EntriesJson;
  }

  lemma {:induction false} RecordsLength(entries: seq<Entry>, execute: (nat, Entry) -> PhaseRun, n: nat)
    requires n <= |entries|
    ensures |Records(entries, execute, n)| == n
    ensures forall i: nat :: i < n ==> Records(entries, execute, n)[i] == Record(i + 1, entries[i], execute(i + 1, entries[i]))
  {
    hide Record;
    if n > 0 { RecordsLength(entries, execute, n - 1); }
  }

  predicate AllComplete(triage: TriageRun, execute: (nat, Entry) -> PhaseRun) {
    && !Erred(triage.phase) && triage.shortlist.Some?
    && forall i: nat :: i < |triage.shortlist.value| ==> !Erred(execute(i + 1, triage.shortlist.value[i]))
  }

  /** Fail-stop, first half. Whatever the executor does and whatever the metadata holds, the result is rankable
      exactly if metadata says so or, where metadata is silent, the runner holds the token, nothing erred, and
      the shortlist has the required size; and likewise for the status. */
  lemma RankableExactly(s: Setup, triage: TriageRun, execute: (nat, Entry) -> PhaseRun)
    ensures Get(RunResult(s, triage, execute), KRankable) == Over(s.metadata, KRankable,
      Bool(s.token && AllComplete(triage, execute) && |triage.shortlist.value| == s.size))
    ensures Get(RunResult(s, triage, execute), KStatus)
      == Over(s.metadata, KStatus, Str(if AllComplete(triage, execute) then "completed" else "run_error"))
  {
    hide Result, Record, Decimal, Records;
    if Erred(triage.phase) {
      ResultReads(s, triage, [], Some("triage infrastructure error: " + triage.phase.error.value));
    } else if triage.shortlist.None? {
      ResultReads(s, triage, [], Some("triage ended without a valid frozen Top50"));
    } else {
      var entries := triage.shortlist.value;
      var n := Stop(entries, execute, 0);
      ResultReads(s, triage, Records(entries, execute, n), LastError(entries, execute, n));
      RecordsLength(entries, execute, n);
      StopMeaning(entries, execute);
      hide Stop, Erred, EpisodeError;
    }
  }

  lemma StopMeaning(entries: seq<Entry>, execute: (nat, Entry) -> PhaseRun)
    ensures var n := Stop(entries, execute, 0);
      LastError(entries, execute, n).None? <==>
        n == |entries| && forall i: nat :: i < |entries| ==> !Erred(execute(i + 1, entries[i]))
  {
    hide Erred, EpisodeError;
    var n := Stop(entries, execute, 0);
    if LastError(entries, execute, n).Some? { assert Erred(execute(n - 1 + 1, entries[n - 1])); }
  }

  /** Fail-stop, second half. The recorded episodes are the in-order prefix of the frozen shortlist that ends
      at the first error. */
  lemma RecordedPrefix(s: Setup, triage: TriageRun, execute: (nat, Entry) -> PhaseRun, i: nat)
    requires KEpisodes !in s.metadata && i < |Items(Get(RunResult(s, triage, execute), KEpisodes))|
    ensures triage.shortlist.Some? && |Items(Get(RunResult(s, triage, execute), KEpisodes))| <= |triage.shortlist.value|
    ensures var episodes, entries := Items(Get(RunResult(s, triage, execute), KEpisodes)), triage.shortlist.value;
      && episodes[i] == Record(i + 1, entries[i], execute(i + 1, entries[i]))
      && (Erred(execute(i + 1, entries[i])) ==> i == |episodes| - 1)
      && (!Erred(execute(i + 1, entries[i])) && i < |entries| - 1 ==> i < |episodes| - 1)
  {
    hide Result, Record, Decimal, Records, EpisodeError;
    if Erred(triage.phase) {
      ResultReads(s, triage, [], Some("triage infrastructure error: " + triage.phase.error.value));
    } else if triage.shortlist.None? {
      ResultReads(s, triage, [], Some("triage ended without a valid frozen Top50"));
    } else {
      var entries := triage.shortlist.value;
      var n := Stop(entries, execute, 0);
      ResultReads(s, triage, Records(entries, execute, n), LastError(entries, execute, n));
      RecordsLength(entries, execute, n);
      hide Erred;
    }
  }

  /** No checkpoint can be mistaken for a finished run, unless metadata says otherwise. */
  lemma CheckpointsAreNotRankable(s: Setup, triage: TriageRun, execute: (nat, Entry) -> PhaseRun, n: nat)
    requires triage.shortlist.Some? && n <= |triage.shortlist.value|
    ensures var r := Checkpoint(s, triage, execute, n);
      && Get(r, KRankable) == Over(s.metadata, KRankable, Bool(false))
      && Get(r, KStatus) == Over(s.metadata, KStatus, Str("run_error"))
      && (KRunError !in s.metadata ==> Truthy(Get(r, KRunError)))
      && Get(r, KEpisodes) == Over(s.metadata, KEpisodes, List(Records(triage.shortlist.value, execute, n)))
  {
    hide Result, Record, Records;
    var message := Incomplete(n, |triage.shortlist.value|);
    ResultReads(s, triage, Records(triage.shortlist.value, execute, n), Some(message));
    assert message[0] == 'r';
  }

  /** No message, or an empty one. */
  predicate Silent(p: PhaseRun) { p.error.None? || p.error.value == "" }

  /** A checkpoint is persisted behind every episode before the first that errs, and behind no other. */
  lemma CheckpointsExactly(triage: TriageRun, execute: (nat, Entry) -> PhaseRun)
    ensures var c := Checkpoints(triage, execute);
      if Silent(triage.phase) && triage.shortlist.Some? then
        var entries := triage.shortlist.value;
        && c <= |entries| && (forall i: nat :: i < c ==> Silent(execute(i + 1, entries[i])))
        && (c < |entries| ==> !Silent(execute(c + 1, entries[c])))
      else c == 0
  {
    if !Erred(triage.phase) && triage.shortlist.Some? {
      var entries := triage.shortlist.value;
      var n := Stop(entries, execute, 0);
      forall i: nat | i + 1 < n ensures Silent(execute(i + 1, entries[i])) {
        assert !Erred(execute(i + 1, entries[i]));
      }
    }
  }

  /** What a record says: its position, rule and hypothesis, the ledger and messages of its phase, that it erred if it
      did, and else whether, and at which attempt, something was accepted first. */
  lemma RecordTells(index: nat, entry: Entry, p: PhaseRun)
    ensures var r := Record(index, entry, p); var attempts := Items(Get(p.ledger, KSubmit));
      && r.Obj? && Get(r.fields, KIndex) == Int(index) && Get(r.fields, KRule) == Str(entry.rule)
      && Get(r.fields, KHypothesis) == Str(entry.hypothesis) && Get(r.fields, KLedger) == Obj(p.ledger)
      && Get(r.fields, KMessages) == List(p.messages)
      && (!Silent(p) ==> Get(r.fields, KStatus) == Str("run_error"))
      && (Silent(p) && AcceptedIn(attempts).None? ==> Get(r.fields, KStatus) == Str("completed"))
      && (Silent(p) && AcceptedIn(attempts).Some? ==> Get(r.fields, KStatus) == Str("bug_found"))
      && Get(r.fields, KAcceptedSubmitAttempt)
         == if AcceptedIn(attempts).Some? then Get(AcceptedIn(attempts).value, KAttempt) else Null
  {
    hide AcceptedIn;
  }

  predicate Says(v: Value) { v.Obj? && Truthy(Get(v.fields, KAccepted)) }

  /** The accepted attempt is the first whose field says something true. */
  lemma {:induction false} AcceptedIsFirst(attempts: seq<Value>) returns (f: nat)
    ensures f <= |attempts|
    ensures forall k :: 0 <= k < f ==> !Says(attempts[k])
    ensures f < |attempts| ==>
      Says(attempts[f]) && AcceptedIn(attempts) == Some(attempts[f].fields)
    ensures f == |attempts| ==> AcceptedIn(attempts) == None
  {
    hide Truthy;
    if attempts == [] || Says(attempts[0]) {
      f := 0;
    } else {
      f := AcceptedIsFirst(attempts[1..]);
      f := f + 1;
    }
  }

  /** The run error of a result names what erred first. */
  lemma RunErrorNamesTheFirst(s: Setup, triage: TriageRun, execute: (nat, Entry) -> PhaseRun, c: nat)
    requires KRunError !in s.metadata && c == Checkpoints(triage, execute)
    ensures var error := Get(RunResult(s, triage, execute), KRunError);
      if !Silent(triage.phase) then error == Str("triage infrastructure error: " + triage.phase.error.value)
      else if triage.shortlist.None? then error == Str("triage ended without a valid frozen Top50")
      else if c < |triage.shortlist.value| then
        execute(c + 1, triage.shortlist.value[c]).error.Some?
        && error == Str("episode " + Decimal(c + 1) + " (" + triage.shortlist.value[c].rule + ") infrastructure error: "
                        + execute(c + 1, triage.shortlist.value[c]).error.value)
      else error == Null
  {
    hide Result, Record, Decimal, Records;
    CheckpointsExactly(triage, execute);
    if Erred(triage.phase) {
      ResultReads(s, triage, [], Some("triage infrastructure error: " + triage.phase.error.value));
    } else if triage.shortlist.None? {
      ResultReads(s, triage, [], Some("triage ended without a valid frozen Top50"));
    } else {
      var entries := triage.shortlist.value;
      var n := Stop(entries, execute, 0);
      ResultReads(s, triage, Records(entries, execute, n), LastError(entries, execute, n));
    }
  }

  /** Metadata is laid over the result last, so it can claim rankability for a run without the token that
      recorded nothing; `RankableExactly` says when exactly. */
  lemma MetadataCanClaimRankability(model: string, size: nat, triage: TriageRun, execute: (nat, Entry) -> PhaseRun)
    requires Erred(triage.phase)
    ensures var s := Setup(false, model, size, map[KRankable := Bool(true), KStatus := Str("completed")]);
      Get(RunResult(s, triage, execute), KRankable) == Bool(true) && Get(RunResult(s, triage, execute), KStatus) == Str("completed")
  {
    hide BaseResult;
  }

  /** An error with an empty message is not noticed. */
  lemma EmptyErrorIsNoError(s: Setup, triage: TriageRun, execute: (nat, Entry) -> PhaseRun)
    requires KRankable !in s.metadata && s.token && triage.shortlist.Some? && |triage.shortlist.value| == s.size
    requires triage.phase.error == Some("") && forall i: nat, e: Entry :: execute(i, e).error == Some("")
    ensures Get(RunResult(s, triage, execute), KRankable) == Bool(true)
  {
    hide RunResult, Record;
    RankableExactly(s, triage, execute);
  }
}
