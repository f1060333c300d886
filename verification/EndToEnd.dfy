/** From the first triage step to the verdict on the artifact: the runner, the session machines and the
    validator together. */
module EndToEnd {
  import opened Text
  import opened Budget
  import opened Json
  import opened Observations
  import opened Episode
  import opened LedgerJson
  import opened Contract
  import opened TriageContract
  import opened Agreement
  import opened LedgerReading
  import opened EpisodeAgreement
  import opened Triage
  import opened TriageAgreement
  import opened Runner
  import opened Submission
  import Submit

  /** The benchmark's limits, as the runner uses them. */
  datatype Bench = Bench(
    triageLimits: Usage, episodeLimits: Usage, config: Config, outputChars: nat,
    triageSeconds: nat, episodeSeconds: nat, demands: Demands)

  /** What happened in one episode: its actions, what went on while its ledger was taken, and what the executor
      reports besides. */
  datatype Play = Play(actions: seq<Action>, reading: Reading, messages: seq<Value>, tokens: real, usage: Value)

  function StartOf(b: Bench, rule: string): Episode {
    Fresh(rule, b.outputChars, b.episodeSeconds, b.episodeLimits, b.config)
  }

  /** The episode ran from its fresh state, and then its ledger was taken. The runner does not wait for the gateway
      before it takes the ledger. */
  predicate Played(b: Bench, rule: string, play: Play) {
    IsEpisodeRun(StartOf(b, rule), play.actions) && IsReading(Final(StartOf(b, rule), play.actions), play.reading)
  }

  function MomentsIn(b: Bench, rule: string, play: Play): Moments
    requires Played(b, rule, play)
  {
    MomentsOf(Final(StartOf(b, rule), play.actions), play.reading)
  }

  function PhaseOf(b: Bench, rule: string, play: Play): PhaseRun {
    PhaseRun(None, if Played(b, rule, play) then Taken(MomentsIn(b, rule, play)) else map[],
             play.messages, play.tokens, play.usage)
  }

  /** The executor that lets these plays happen. */
  function Executor(b: Bench, plays: seq<Play>): (nat, Entry) -> PhaseRun {
    (i: nat, e: Entry) => if 0 < i <= |plays| then PhaseOf(b, e.rule, plays[i - 1]) else PhaseRun(Some("missing"), map[], [], 0.0, Null)
  }

  /** The expectation of the validator and the limits of the runner are the same benchmark. */
  predicate Matches(b: Bench, x: Expected) {
    && x.triageBudget == TriageBudgetFields(b.triageLimits, b.outputChars, b.triageSeconds)
    && x.episodeBudget == BudgetFields(StartOf(b, ""))
    && x.observation == b.config && x.shortlistSize == b.demands.size > 0 && x.hypothesisChars == b.demands.hypothesisChars
  }

  const METADATA_FIELDS: set<Key> := {
    KLibraryCommit, KRunnerVersion, KPredVersion, KPromptId, KSafetyControls, KInferenceParameters }

  /** The metadata the command line adds: all required fields, nothing that overrides the runner's own. */
  predicate GoodMetadata(metadata: Fields, x: Expected) {
    && METADATA_FIELDS <= metadata.Keys <= METADATA_FIELDS + {KCreatedAt, KSubmittedBy, KTest}
    && PyEq(Get(metadata, KRunnerVersion), x.runnerVersion) && PyEq(Get(metadata, KSafetyControls), x.safetyControls)
    && PyEq(Get(metadata, KInferenceParameters), x.inference) && PyEq(Get(metadata, KPromptId), x.promptId)
    && SafeSubmitter(Get(metadata, KSubmittedBy))
  }

  // ---------------------------------------------------------------- the header

  lemma BaseKeys(s: Setup, triage: TriageRun, episodes: seq<Value>)
    ensures BaseResult(s, triage, episodes, None).Keys == {KModel, KStatus, KRankable, KShortlist, KTriage, KEpisodes}
  {
    hide EntryItems;
  }

  lemma OverlayReads(s: Setup, triage: TriageRun, episodes: seq<Value>)
    requires METADATA_FIELDS <= s.metadata.Keys
    ensures var r := Result(s, triage, episodes, None);
      && r.Keys == {KModel, KStatus, KRankable, KShortlist, KTriage, KEpisodes} + s.metadata.Keys
      && Get(r, KRunnerVersion) == Get(s.metadata, KRunnerVersion)
      && Get(r, KSafetyControls) == Get(s.metadata, KSafetyControls)
      && Get(r, KInferenceParameters) == Get(s.metadata, KInferenceParameters)
      && Get(r, KPromptId) == Get(s.metadata, KPromptId) && Get(r, KSubmittedBy) == Get(s.metadata, KSubmittedBy)
  {
    hide BaseResult;
    BaseKeys(s, triage, episodes);
  }

  /** Metadata that leaves the runner's own fields alone. */
  predicate Reserved(metadata: Fields) {
    KStatus !in metadata && KRankable !in metadata && KRunError !in metadata && KEpisodes !in metadata
    && KShortlist !in metadata && KTriage !in metadata && KModel !in metadata
  }

  lemma MetadataIsReserved(metadata: Fields, x: Expected)
    requires GoodMetadata(metadata, x)
    ensures Reserved(metadata)
  {
    hide PyEq, SafeSubmitter;
  }

  lemma ResultHeader(s: Setup, triage: TriageRun, episodes: seq<Value>, x: Expected)
    requires GoodMetadata(s.metadata, x) && SafeModel(Str(s.model)) && s.token && |episodes| == s.size
    ensures HeaderClean(Result(s, triage, episodes, None), x)
  {
    hide SafeModel, SafeSubmitter, PyEq, BaseResult, Result, EntriesJson;
    MetadataIsReserved(s.metadata, x);
    ResultReads(s, triage, episodes, None);
    OverlayReads(s, triage, episodes);
    PyEqSame(Str("completed"));
  }

  // ---------------------------------------------------------------- the shortlist

  lemma EntryReads(entries: seq<Entry>, k: nat)
    requires k < |entries|
    ensures |EntryItems(entries)| == |entries|
    ensures var v := EntryItems(entries)[k];
      && v.Obj? && v.fields.Keys == {KRule, KHypothesis} && Get(v.fields, KRule) == Str(entries[k].rule)
      && GetOr(v.fields, KHypothesis, Str("")) == Str(entries[k].hypothesis) && HasRule(v)
  {
  }

  lemma {:induction false} RulesRead(entries: seq<Entry>, n: nat)
    requires n <= |entries|
    ensures |EntryItems(entries)| == |entries| && |Rules(EntryItems(entries), n)| == n
    ensures forall k :: 0 <= k < n ==> Rules(EntryItems(entries), n)[k] == entries[k].rule
  {
    if n > 0 {
      RulesRead(entries, n - 1);
      EntryReads(entries, n - 1);
    }
  }

  lemma ShortlistIsClean(d: Demands, entries: seq<Entry>, x: Expected)
    requires GoodShortlist(d, entries) && x.hypothesisChars == d.hypothesisChars
    ensures ShortlistClean(EntryItems(entries), Some(set rule | rule in d.inventory), x)
  {
    var items := EntryItems(entries);
    RulesRead(entries, |entries|);
    var rules := Rules(items, |items|);
    hide EntryItems, Rules;
    forall k | 0 <= k < |items| ensures EntryClean(items[k], x) { EntryReads(entries, k); }
    forall rule | rule in rules ensures rule in d.inventory {
      var k :| 0 <= k < |rules| && rules[k] == rule;
      assert entries[k].rule in d.inventory;
    }
  }

  // ---------------------------------------------------------------- one episode

  lemma {:induction false} AcceptedAgrees(attempts: seq<Value>)
    requires forall k :: 0 <= k < |attempts| ==> attempts[k].Obj? && Get(attempts[k].fields, KAccepted).Bool?
    ensures AcceptedIn(attempts).Some? <==> ExpectedAttempt(attempts).Some?
    ensures AcceptedIn(attempts).Some? ==> Get(AcceptedIn(attempts).value, KAttempt) == ExpectedAttempt(attempts).value
  {
    if attempts != [] { AcceptedAgrees(attempts[1..]); }
  }

  lemma RecordReads(index: nat, entry: Entry, p: PhaseRun)
    requires !Erred(p)
    ensures var d, accepted := Record(index, entry, p), AcceptedIn(Items(Get(p.ledger, KSubmit)));
      && d.Obj? && Get(d.fields, KIndex) == Int(index) && Get(d.fields, KRule) == Str(entry.rule)
      && Get(d.fields, KHypothesis) == Str(entry.hypothesis)
      && Get(d.fields, KStatus) == Str(if accepted.Some? then "bug_found" else "completed")
      && Get(d.fields, KAcceptedSubmitAttempt) == (if accepted.Some? then Get(accepted.value, KAttempt) else Null)
      && Get(d.fields, KLedger) == Obj(p.ledger) && Get(d.fields, KMessages) == List(p.messages)
  {
    hide AcceptedIn;
  }

  lemma NotRunError(b: bool)
    ensures !PyEq(Str(if b then "bug_found" else "completed"), Str("run_error"))
  {
    assert "bug_found"[0] == 'b' && "completed"[0] == 'c' && "run_error"[0] == 'r';
    PyEqStr("run_error", Str(if b then "bug_found" else "completed"));
  }

  lemma SubmitItemsAccepted(ep: Episode, k: nat)
    requires k < |ep.submit.attempts|
    ensures k < |SubmitItems(ep)| && SubmitItems(ep)[k].Obj? && Get(SubmitItems(ep)[k].fields, KAccepted).Bool?
  {
    ItemCounts(ep);
    SubmitItemReads(ep, k);
  }

  lemma OutcomeAgrees(ep: Episode, index: nat, entry: Entry, p: PhaseRun)
    requires !Erred(p) && KSubmit in p.ledger && Get(p.ledger, KSubmit) == List(SubmitItems(ep))
    ensures Record(index, entry, p).Obj? && OutcomeClean(Record(index, entry, p).fields, p.ledger)
  {
    hide Record, SubmitItems, AcceptedIn, ExpectedAttempt, PyEq;
    RecordReads(index, entry, p);
    ItemCounts(ep);
    forall k | 0 <= k < |SubmitItems(ep)| ensures SubmitItems(ep)[k].Obj? && Get(SubmitItems(ep)[k].fields, KAccepted).Bool? {
      SubmitItemsAccepted(ep, k);
    }
    AcceptedAgrees(SubmitItems(ep));
    var expected := ExpectedAttempt(SubmitItems(ep));
    PyEqSame(Str(if expected.Some? then "bug_found" else "completed"));
    PyEqSame(if expected.Some? then expected.value else Null);
  }

  lemma SubmitKeyPresent(ep: Episode)
    ensures KSubmit in Ledger(ep) && KRule in Ledger(ep) && Get(Ledger(ep), KRule) == Str(ep.rule)
  {
    hide EpisodeStatus, BudgetFields, PredItems, SubmitItems, ModelItems, ShellItems, ObservationItems;
  }

  lemma RecordAgrees(b: Bench, x: Expected, entries: seq<Entry>, i: nat, p: PhaseRun, rules: seq<string>)
    requires Matches(b, x) && i < |entries| && |rules| == |entries| && rules[i] == entries[i].rule
    requires !Erred(p) && Get(p.ledger, KRule) == Str(entries[i].rule) && Get(p.ledger, KBudget) == Obj(x.episodeBudget)
    ensures |EntryItems(entries)| == |entries| && EntryItems(entries)[i].Obj?
    ensures Record(i + 1, entries[i], p).Obj?
    ensures EpisodeRecordClean(Record(i + 1, entries[i], p).fields, i, EntryItems(entries)[i].fields, rules, x)
  {
    hide Record, AcceptedIn, PyEq, EntryItems, BudgetFields, Matches;
    RecordReads(i + 1, entries[i], p);
    EntryReads(entries, i);
    PyEqSame(Int(i + 1));
    PyEqSame(Str(rules[i]));
    PyEqSame(Str(entries[i].hypothesis));
    PyEqSame(Obj(x.episodeBudget));
    NotRunError(AcceptedIn(Items(Get(p.ledger, KSubmit))).Some?);
  }

  lemma BudgetsAgree(b: Bench, ep: Episode)
    requires ep.gateway.limits == b.episodeLimits && ep.outputChars == b.outputChars && ep.timeoutSeconds == b.episodeSeconds
    ensures BudgetFields(ep) == BudgetFields(StartOf(b, ""))
  {
  }

  lemma {:induction false} SettingsConstant(ep: Episode, actions: seq<Action>)
    requires IsEpisodeRun(ep, actions)
    ensures Final(ep, actions).outputChars == ep.outputChars && Final(ep, actions).timeoutSeconds == ep.timeoutSeconds
    decreases |actions|
  {
    hide Possible, Gateway.Advance, Generate, Admit, Attach, Submit.Serve, IsEpisodeRun, Final;
    if actions != [] {
      FinalUnfolds(ep, actions);
      SettingsConstant(Step(ep, actions[0]), actions[1..]);
    } else {
      FinalNothing(ep);
    }
  }

  /** What the header of a taken ledger says. */
  lemma TakenHeader(m: Moments)
    requires Coherent(m)
    ensures Get(Taken(m), KRule) == Str(m.events.rule) && Get(Taken(m), KBudget) == Obj(BudgetFields(m.events))
    ensures KSubmit in Taken(m) && Get(Taken(m), KSubmit) == List(SubmitItems(Cut(m)))
  {
    hide Taken, Ledger, BudgetFields, SubmitItems, Coherent;
    TakenField(m, KRule);
    TakenField(m, KBudget);
    TakenField(m, KSubmit);
    SubmitKeyPresent(Cut(m));
    LedgerReads(Cut(m));
    CutBudget(m);
  }

  lemma PlayIsCoherent(b: Bench, rule: string, play: Play)
    requires Played(b, rule, play)
    ensures Coherent(MomentsIn(b, rule, play)) && MomentsIn(b, rule, play).events == Final(StartOf(b, rule), play.actions)
  {
    hide IsEpisodeRun, Final, EpisodeInv, Coherent, IsBackground;
    FreshInv(rule, b.outputChars, b.episodeSeconds, b.episodeLimits, b.config);
    EpisodeRunKeeps(StartOf(b, rule), play.actions);
    ReadingIsCoherent(Final(StartOf(b, rule), play.actions), play.reading);
  }

  /** One played episode is accepted exactly under the provisos of the agreement theorem. */
  lemma PlayedEpisodeAgrees(b: Bench, x: Expected, entries: seq<Entry>, i: nat, play: Play, rules: seq<string>, seen: set<string>)
    requires Matches(b, x) && i < |entries| && |rules| == |entries| && rules[i] == entries[i].rule
    requires Played(b, entries[i].rule, play) && MessagesClean(List(play.messages), x)
    ensures |EntryItems(entries)| == |entries|
    ensures EpisodeClean(Record(i + 1, entries[i], PhaseOf(b, entries[i].rule, play)), i, EntryItems(entries)[i], rules, x, seen)
      <==> TakenProvisos(MomentsIn(b, entries[i].rule, play), seen)
  {
    hide Record, Taken, EntryItems, BudgetFields, LedgerClean, TakenProvisos, MessagesClean, EpisodeRecordClean, OutcomeClean,
         IsEpisodeRun, Final, IsReading, MomentsOf, SubmitItems, Coherent;
    var rule := entries[i].rule;
    var m, p := MomentsIn(b, rule, play), PhaseOf(b, rule, play);
    PlayIsCoherent(b, rule, play);
    RunConstants(StartOf(b, rule), play.actions);
    SettingsConstant(StartOf(b, rule), play.actions);
    BudgetsAgree(b, m.events);
    TakenHeader(m);
    RecordAgrees(b, x, entries, i, p, rules);
    RecordReads(i + 1, entries[i], p);
    OutcomeAgrees(Cut(m), i + 1, entries[i], p);
    AgreementOverReading(rule, b.outputChars, b.episodeSeconds, b.episodeLimits, b.config, play.actions, play.reading, seen);
    hide AcceptedIn;
  }

  // ---------------------------------------------------------------- the whole artifact

  /** The artifact that a token-holding runner returns for this triage and these plays. */
  function Artifact(b: Bench, s: Setup, triage: TriageRun, plays: seq<Play>): Fields {
    RunResult(s, triage, Executor(b, plays))
  }

  /** Every episode meets the provisos, with the ids of the earlier ones as those already seen. */
  ghost predicate AllProvisos(b: Bench, entries: seq<Entry>, plays: seq<Play>, episodes: seq<Value>) {
    && |plays| == |entries| == |episodes|
    && forall i :: 0 <= i < |plays| ==>
         Played(b, entries[i].rule, plays[i])
         && TakenProvisos(MomentsIn(b, entries[i].rule, plays[i]), SeenBefore(episodes, i))
  }

  /** What an honest run has to avoid to be accepted. */
  ghost predicate RunProvisos(b: Bench, t: TriageState, plays: seq<Play>, episodes: seq<Value>) {
    && t.shortlist.Some? && CommitIsLast(t.events) && |t.events| <= b.triageLimits.models + b.triageLimits.shells + 3
    && AllProvisos(b, t.shortlist.value, plays, episodes)
  }

  lemma NoErrorStops(b: Bench, entries: seq<Entry>, plays: seq<Play>)
    requires |plays| == |entries|
    ensures Stop(entries, Executor(b, plays), 0) == |entries| && LastError(entries, Executor(b, plays), |entries|) == None
  {
    hide Taken, MomentsIn, Played;
    var execute := Executor(b, plays);
    forall i: nat | i < |entries| ensures !Erred(execute(i + 1, entries[i])) {}
  }

  lemma EpisodesAgree(b: Bench, x: Expected, entries: seq<Entry>, plays: seq<Play>, rules: seq<string>, episodes: seq<Value>)
    requires Matches(b, x) && |plays| == |entries| == |rules| == |episodes| == |EntryItems(entries)|
    requires forall i :: 0 <= i < |entries| ==> rules[i] == entries[i].rule
    requires forall i :: 0 <= i < |plays| ==> Played(b, entries[i].rule, plays[i])
    requires forall i :: 0 <= i < |plays| ==> MessagesClean(List(plays[i].messages), x)
    requires forall i :: 0 <= i < |plays| ==> episodes[i] == Record(i + 1, entries[i], PhaseOf(b, entries[i].rule, plays[i]))
    ensures EpisodesClean(episodes, |episodes|, EntryItems(entries), rules, x) <==> AllProvisos(b, entries, plays, episodes)
  {
    hide Record, EntryItems, MessagesClean, EpisodeClean, TakenProvisos, PhaseOf, Matches, SeenBefore, Played, MomentsIn;
    forall i | 0 <= i < |plays|
      ensures EpisodeClean(episodes[i], i, EntryItems(entries)[i], rules, x, SeenBefore(episodes, i))
        <==> TakenProvisos(MomentsIn(b, entries[i].rule, plays[i]), SeenBefore(episodes, i))
    {
      PlayedEpisodeAgrees(b, x, entries, i, plays[i], rules, SeenBefore(episodes, i));
    }
  }

  /** The recorded episodes are the records of the plays. */
  lemma RecordsOfPlays(b: Bench, entries: seq<Entry>, plays: seq<Play>)
    requires |plays| == |entries|
    ensures var episodes := Records(entries, Executor(b, plays), |entries|);
      && |episodes| == |entries|
      && forall i :: 0 <= i < |plays| ==> episodes[i] == Record(i + 1, entries[i], PhaseOf(b, entries[i].rule, plays[i]))
  {
    hide Record, PhaseOf, Records;
    RecordsLength(entries, Executor(b, plays), |entries|);
  }

  lemma TriageOfArtifact(b: Bench, x: Expected, t: TriageState, triage: Value, actions: seq<TriageAction>)
    requires Matches(b, x) && t.shortlist.Some?
    requires IsTriageRun(Start(b.demands, b.triageLimits, b.config), actions)
    requires t == TriageEnd(Start(b.demands, b.triageLimits, b.config), actions) && !t.pending
    requires triage.Obj? && Get(triage.fields, KLedger) == Obj(TriageLedger(t, b.outputChars, b.triageSeconds))
    ensures TriageClean(triage, EntriesJson(t.shortlist.value), x) <==>
      CommitIsLast(t.events) && |t.events| <= b.triageLimits.models + b.triageLimits.shells + 3
  {
    hide TriageLedger, TriageLedgerClean, CommitIsLast, TriageBudgetFields, IsTriageRun, TriageEnd, EntryItems, PyEq, TriageInv;
    TriageMeetsValidator(b.demands, b.triageLimits, b.config, b.outputChars, b.triageSeconds, actions);
    TriageLedgerReads(t, b.outputChars, b.triageSeconds);
    ShortlistReads(t, b.outputChars, b.triageSeconds);
    StartInv(b.demands, b.triageLimits, b.config);
    ShortlistFreezes(Start(b.demands, b.triageLimits, b.config), actions);
    PyEqSame(Obj(x.triageBudget));
    PyEqSame(EntriesJson(t.shortlist.value));
  }

  lemma ShortlistReads(t: TriageState, chars: nat, seconds: nat)
    requires t.shortlist.Some?
    ensures Get(TriageLedger(t, chars, seconds), KShortlist) == EntriesJson(t.shortlist.value)
  {
    hide TriageBudgetFields, StatusFields, JsonList, ItemsOf, EntryItems;
  }

  /** A runner with the token and the right metadata; a triage run with no action pending; and, if it froze a
      shortlist, one play per rule that kept its messages within bounds. */
  ghost predicate HonestRun(b: Bench, x: Expected, s: Setup, t: TriageState, actions: seq<TriageAction>,
                            triage: TriageRun, plays: seq<Play>) {
    && Matches(b, x) && GoodMetadata(s.metadata, x) && SafeModel(Str(s.model)) && s.token && s.size == b.demands.size
    && IsTriageRun(Start(b.demands, b.triageLimits, b.config), actions)
    && t == TriageEnd(Start(b.demands, b.triageLimits, b.config), actions) && !t.pending
    && !Erred(triage.phase) && triage.shortlist == t.shortlist
    && triage.phase.ledger == TriageLedger(t, b.outputChars, b.triageSeconds)
    && |plays| == b.demands.size
    && (t.shortlist.Some? && |t.shortlist.value| == |plays| ==> AllPlayed(b, x, t.shortlist.value, plays))
  }

  ghost predicate AllPlayed(b: Bench, x: Expected, entries: seq<Entry>, plays: seq<Play>)
    requires |entries| == |plays|
  {
    && (forall i :: 0 <= i < |plays| ==> Played(b, entries[i].rule, plays[i]))
    && (forall i :: 0 <= i < |plays| ==> MessagesClean(List(plays[i].messages), x))
  }

  /** From the first step to the verdict. A runner that holds the token lets triage and then one fresh episode
      per frozen rule run, in any interleaving the machines allow, without executor error, and takes the ledger
      of each, part by part, while gateway workers and the submit service may go on. The artifact it returns is
      accepted by the validator exactly if: triage froze a shortlist, nothing followed the commit, its event
      list stayed within its bound, and the reading of every episode meets the provisos of the agreement
      theorem, with the request ids of all earlier episodes as those already seen. */
  lemma HonestRunMeetsValidator(b: Bench, x: Expected, s: Setup, t: TriageState, actions: seq<TriageAction>,
                                triage: TriageRun, plays: seq<Play>)
    requires HonestRun(b, x, s, t, actions, triage, plays)
    ensures SubmissionClean(Obj(Artifact(b, s, triage, plays)), Some(set rule | rule in b.demands.inventory), x)
      <==> RunProvisos(b, t, plays, Items(Get(Artifact(b, s, triage, plays), KEpisodes)))
  {
    hide TriageLedger, IsTriageRun, TriageEnd, MessagesClean, Result, Records, PyEq, SafeModel, GoodMetadata, EntryItems, Rules,
         HeaderClean, ShortlistClean, TriageClean, EpisodesClean, CommitIsLast, TakenProvisos, SeenBefore, Stop, TriageInv, Played,
         MomentsIn, Executor;
    StartInv(b.demands, b.triageLimits, b.config);
    ShortlistFreezes(Start(b.demands, b.triageLimits, b.config), actions);
    if t.shortlist.None? {
      NoShortlistRejected(b, s, triage, plays, x);
    } else {
      var entries := t.shortlist.value;
      FrozenIsGood(t);
      WithShortlist(b, x, s, t, actions, triage, plays);
    }
  }

  lemma FrozenIsGood(t: TriageState)
    requires TriageInv(t) && t.shortlist.Some?
    ensures GoodShortlist(t.demands, t.shortlist.value)
  {
  }

  lemma NoShortlistRejected(b: Bench, s: Setup, triage: TriageRun, plays: seq<Play>, x: Expected)
    requires GoodMetadata(s.metadata, x) && !Erred(triage.phase) && triage.shortlist.None?
    ensures !HeaderClean(Artifact(b, s, triage, plays), x)
  {
    hide PyEq, Result, SafeModel, SafeSubmitter, Executor;
    MetadataIsReserved(s.metadata, x);
    var message := "triage ended without a valid frozen Top50";
    ResultReads(s, triage, [], Some(message));
    assert Get(Result(s, triage, [], Some(message)), KRunError) == Str(message) && message[0] == 't';
  }

  lemma WithShortlist(b: Bench, x: Expected, s: Setup, t: TriageState, actions: seq<TriageAction>,
                      triage: TriageRun, plays: seq<Play>)
    requires HonestRun(b, x, s, t, actions, triage, plays)
    requires t.shortlist.Some? && GoodShortlist(b.demands, t.shortlist.value)
    ensures SubmissionClean(Obj(Artifact(b, s, triage, plays)), Some(set rule | rule in b.demands.inventory), x)
      <==> RunProvisos(b, t, plays, Items(Get(Artifact(b, s, triage, plays), KEpisodes)))
  {
    hide TriageLedger, IsTriageRun, TriageEnd, MessagesClean, Result, Records, PyEq, SafeModel, GoodMetadata, EntryItems, Rules,
         HeaderClean, ShortlistClean, TriageClean, EpisodesClean, CommitIsLast, TakenProvisos, SeenBefore, Stop, Played, MomentsIn,
         Executor, LastError;
    var entries := t.shortlist.value;
    var items := EntryItems(entries);
    var rules := Rules(items, |items|);
    RulesRead(entries, |entries|);
    NoErrorStops(b, entries, plays);
    RecordsOfPlays(b, entries, plays);
    var episodes := Records(entries, Executor(b, plays), |entries|);
    EpisodesAgree(b, x, entries, plays, rules, episodes);
    var r := Result(s, triage, episodes, None);
    assert Artifact(b, s, triage, plays) == r;
    ResultHeader(s, triage, episodes, x);
    MetadataIsReserved(s.metadata, x);
    ResultReads(s, triage, episodes, None);
    ShortlistIsClean(b.demands, entries, x);
    TriageOfArtifact(b, x, t, Get(r, KTriage), actions);
  }

  // ---------------------------------------------------------------- the theorem is not empty

  /** An episode in which nothing happens. */
  const NO_PLAY := Play([], AT_ONCE, [], 0.0, Null)

  function NoPlays(n: nat): seq<Play> { seq(n, _ => NO_PLAY) }

  lemma NoPlayAgrees(b: Bench, rule: string, x: Expected, seen: set<string>)
    requires Matches(b, x)
    ensures Played(b, rule, NO_PLAY) && MessagesClean(List(NO_PLAY.messages), x)
    ensures TakenProvisos(MomentsIn(b, rule, NO_PLAY), seen)
  {
    hide IsReading, MomentsOf;
    FinalNothing(StartOf(b, rule));
    AtOnceMoments(StartOf(b, rule));
    assert x.episodeBudget[KModelGenerations] == Int(b.episodeLimits.models) by { ModelsInBudget(b); }
  }

  lemma ModelsInBudget(b: Bench)
    ensures KModelGenerations in BudgetFields(StartOf(b, ""))
    ensures BudgetFields(StartOf(b, ""))[KModelGenerations] == Int(b.episodeLimits.models)
  {
  }

  /** The file a good shortlist would be written to reads back as that shortlist. */
  lemma ShortlistReadsBack(d: Demands, entries: seq<Entry>)
    requires GoodShortlist(d, entries)
    ensures Reads(d, EntriesJson(entries), entries)
  {
    forall k | 0 <= k < |entries| ensures ReadEntry(d, EntryItems(entries)[k]) == Some(entries[k]) {
      EntryReads(entries, k);
    }
  }

  lemma CommitOnly(d: Demands, limits: Usage, config: Config, entries: seq<Entry>)
    requires GoodShortlist(d, entries)
    ensures var actions := [CommitPayload(Some(EntriesJson(entries)), entries)];
      && IsTriageRun(Start(d, limits, config), actions)
      && TriageEnd(Start(d, limits, config), actions)
        == Start(d, limits, config).(shortlist := Some(entries), events := [Commit(RulesOfEntries(entries))])
  {
    hide GoodShortlist, Reads, EntryItems;
    ShortlistReadsBack(d, entries);
    var start, a := Start(d, limits, config), CommitPayload(Some(EntriesJson(entries)), entries);
    assert [a][1..] == [];
    assert Commits(start, a) && Do(start, a) == start.(shortlist := Some(entries), events := [Commit(RulesOfEntries(entries))]);
    assert IsTriageRun(Do(start, a), []) && TriageEnd(Do(start, a), []) == Do(start, a);
  }

  /** A run that only freezes a good shortlist and then lets every episode pass idle is accepted, for every
      benchmark. So the conditions of the theorem can be met, and so can the validator. */
  lemma IdleRunIsAccepted(b: Bench, x: Expected, s: Setup, entries: seq<Entry>)
    requires Matches(b, x) && GoodMetadata(s.metadata, x) && SafeModel(Str(s.model)) && s.token && s.size == b.demands.size
    requires GoodShortlist(b.demands, entries)
    ensures exists triage, plays :: SubmissionClean(Obj(Artifact(b, s, triage, plays)), Some(set rule | rule in b.demands.inventory), x)
  {
    hide TriageLedger, GoodMetadata, SafeModel, SubmissionClean, Artifact, TakenProvisos, IsTriageRun, TriageEnd, GoodShortlist,
         EntryItems, SeenBefore, MessagesClean, Matches, MomentsIn, Played;
    var actions := [CommitPayload(Some(EntriesJson(entries)), entries)];
    CommitOnly(b.demands, b.triageLimits, b.config, entries);
    var t := TriageEnd(Start(b.demands, b.triageLimits, b.config), actions);
    var triage := TriageRun(PhaseRun(None, TriageLedger(t, b.outputChars, b.triageSeconds), [], 0.0, Null), t.shortlist);
    var plays := NoPlays(b.demands.size);
    assert |entries| == |plays| by { SizeOf(b.demands, entries); }
    forall i | 0 <= i < |plays|
      ensures Played(b, entries[i].rule, plays[i]) && MessagesClean(List(plays[i].messages), x)
    {
      NoPlayAgrees(b, entries[i].rule, x, {});
    }
    assert HonestRun(b, x, s, t, actions, triage, plays);
    HonestRunMeetsValidator(b, x, s, t, actions, triage, plays);
    var episodes := Items(Get(Artifact(b, s, triage, plays), KEpisodes));
    assert |episodes| == |entries| by { IdleEpisodes(b, s, triage, plays, entries, x); }
    forall i | 0 <= i < |plays|
      ensures Played(b, entries[i].rule, plays[i])
      ensures TakenProvisos(MomentsIn(b, entries[i].rule, plays[i]), SeenBefore(episodes, i))
    {
      NoPlayAgrees(b, entries[i].rule, x, SeenBefore(episodes, i));
    }
    assert RunProvisos(b, t, plays, episodes);
  }

  lemma SizeOf(d: Demands, entries: seq<Entry>)
    requires GoodShortlist(d, entries)
    ensures |entries| == d.size
  {
  }

  lemma IdleEpisodes(b: Bench, s: Setup, triage: TriageRun, plays: seq<Play>, entries: seq<Entry>, x: Expected)
    requires GoodMetadata(s.metadata, x) && !Erred(triage.phase) && triage.shortlist == Some(entries) && |plays| == |entries|
    ensures |Items(Get(Artifact(b, s, triage, plays), KEpisodes))| == |entries|
  {
    hide Result, Records, Executor, GoodMetadata;
    NoErrorStops(b, entries, plays);
    RecordsOfPlays(b, entries, plays);
    MetadataIsReserved(s.metadata, x);
    ResultReads(s, triage, Records(entries, Executor(b, plays), |entries|), None);
  }
}
