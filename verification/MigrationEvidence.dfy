// Reports and the evidence ledger: drafting a checklist, confirming it and recording
// an accepted stage.
module MigrationEvidence {
  import opened Common
  import opened Text
  import opened CustomerMigration

  /****** Reports ******/

  datatype Check = Check(status: string, evidence: string)

  datatype Confirmation = Confirmation(login: string, id: string, run: string, attempt: string)

  datatype Report = Report(
    stage: int, environment: Json, digest: Hash, revision: string, generated: Option<int>, observed: Option<int>,
    checks: map<string, Check>, confirmation: Option<Confirmation>)

  function NamesOf(checks: seq<string>): set<string> {
    set name | name in checks
  }

  // The scope every report of a stage has to state.
  predicate InScope(ctx: Context, stage: int, report: Report) {
    && Active(ctx.config, stage) && report.stage == stage && report.environment == EnvironmentOf(ctx.config)
    && report.digest == OfStage(StageFingerprint(ctx.config, stage)) && report.revision == ctx.revision
  }

  // An observation: at least twelve characters and no placeholder left.
  predicate Observation(text: string) {
    |Strip(text)| >= 12 && !Includes(Upper(text), "REPLACE")
  }

  // What record_evidence demands of a report.
  predicate Passed(ctx: Context, stage: int, report: Report) {
    && InScope(ctx, stage, report)
    && report.checks.Keys == NamesOf(StageChecks(ctx.config, ctx.single, stage))
    && forall name | name in report.checks :: report.checks[name].status == "passed" && Observation(report.checks[name].evidence)
  }

  const PENDING := "REPLACE_ACTUAL_TEST_RESULT_AND_PRIVATE_REFERENCE"

  function DraftReport(ctx: Context, stage: nat): Report
    requires stage < 10
  {
    Report(stage, EnvironmentOf(ctx.config), OfStage(StageFingerprint(ctx.config, stage)), ctx.revision, Some(ctx.now), None,
           map name | name in NamesOf(StageChecks(ctx.config, ctx.single, stage)) :: Check("pending", PENDING), None)
  }

  /****** Confirming ******/

  predicate Separator(c: char) {
    c == ',' || Blank(c)
  }

  function SkipSeparators(s: string): (r: string)
    ensures |r| <= |s|
  {
    if s != "" && Separator(s[0]) then SkipSeparators(s[1..]) else s
  }

  // re.split on runs of commas and blanks.
  function SplitRuns(s: string): (parts: seq<string>)
    ensures |parts| > 0
    decreases |s|
  {
    if s == "" then [""]
    else if Separator(s[0]) then [""] + SplitRuns(SkipSeparators(s[1..]))
    else
      var rest := SplitRuns(s[1..]);
      [[s[0]] + rest[0]] + rest[1..]
  }

  datatype Actor = Actor(login: string, triggering: string, id: string, run: string, attempt: string)

  predicate Identifier(s: string) {
    1 <= |s| <= 20 && '1' <= s[0] <= '9' && forall c | c in s :: IsDigit(c)
  }

  predicate Operator(ctx: Context, login: string, actor: Actor) {
    && ctx.single && |ctx.eligible| == 1 && login != ""
    && Lower(actor.login) == Lower(login) && Lower(actor.triggering) == Lower(login)
    && Identifier(actor.id) && Identifier(actor.run) && Identifier(actor.attempt)
  }

  // The reviewed checklist is the pending one of this stage.
  predicate Reviewable(ctx: Context, stage: int, reviewed: Report) {
    && InScope(ctx, stage, reviewed)
    && reviewed.generated.Some? && ctx.now - WEEK <= reviewed.generated.value <= ctx.now
    && reviewed.checks.Keys == NamesOf(StageChecks(ctx.config, ctx.single, stage))
    && forall name | name in reviewed.checks :: reviewed.checks[name].status == "pending"
  }

  // Every required check is named once and nothing else is.
  predicate Selected(checks: seq<string>, items: string) {
    var names := SplitRuns(Strip(items));
    Distinct(names) && NamesOf(names) == NamesOf(checks)
  }

  // confirm_report; nothing when it refuses.
  function Confirmed(ctx: Context, login: string, stage: int, reviewed: Report, items: string, notes: string, actor: Actor): Option<Report> {
    if !Operator(ctx, login, actor) || !Reviewable(ctx, stage, reviewed)
       || !Selected(StageChecks(ctx.config, ctx.single, stage), items)
       || !(12 <= |Strip(notes)| <= 4000) || Includes(Upper(notes), "REPLACE") then None
    else
      Some(Report(stage, EnvironmentOf(ctx.config), OfStage(StageFingerprint(ctx.config, stage)), ctx.revision,
                  reviewed.generated, Some(ctx.now),
                  map name | name in NamesOf(StageChecks(ctx.config, ctx.single, stage)) :: Check("passed", Strip(notes)),
                  Some(Confirmation(actor.login, actor.id, actor.run, actor.attempt))))
  }

  // Stripping notes twice changes nothing and brings no placeholder back.
  lemma StripObservation(notes: string)
    requires |Strip(notes)| >= 12 && !Includes(Upper(notes), "REPLACE")
    ensures Observation(Strip(notes))
  {
    hide Strip, Includes;
    StripTwice(notes);
    var i, j := StripSlice(notes);
    assert Upper(Strip(notes)) == Upper(notes)[i..j];
    if Includes(Upper(Strip(notes)), "REPLACE") { IncludesSlice(Upper(notes), i, j, "REPLACE"); }
  }

  // Whatever confirm_report returns passes every test record_evidence makes of a
  // report's scope, check set and observations.
  lemma ConfirmedPasses(ctx: Context, login: string, stage: int, reviewed: Report, items: string, notes: string, actor: Actor)
    requires Confirmed(ctx, login, stage, reviewed, items, notes, actor).Some?
    ensures Passed(ctx, stage, Confirmed(ctx, login, stage, reviewed, items, notes, actor).value)
    ensures Confirmed(ctx, login, stage, reviewed, items, notes, actor).value.observed == Some(ctx.now)
  {
    StripObservation(notes);
  }

  predicate PlainName(name: string) {
    name != "" && forall c | c in name :: !Separator(c)
  }

  lemma {:induction false} SplitRunsPlain(head: string, tail: string)
    requires PlainName(head)
    ensures SplitRuns(head) == [head]
    ensures tail != "" && !Separator(tail[0]) ==> SplitRuns(head + "," + tail) == [head] + SplitRuns(tail)
  {
    var whole := head + "," + tail;
    assert head[0] in head && whole[0] == head[0];
    if |head| == 1 {
      assert head[1..] == "" && whole[1..] == "," + tail && ("," + tail)[1..] == tail;
      assert SplitRuns("") == [""] && head == [head[0]] + "";
    } else {
      assert forall c | c in head[1..] :: c in head;
      SplitRunsPlain(head[1..], tail);
      assert whole[1..] == head[1..] + "," + tail;
      assert [head[0]] + head[1..] == head;
      if tail != "" && !Separator(tail[0]) {
        assert ([head[1..]] + SplitRuns(tail))[1..] == SplitRuns(tail);
      }
    }
  }

  lemma {:induction false} JoinStarts(names: seq<string>)
    requires |names| > 0 && forall name | name in names :: PlainName(name)
    ensures Join(names, ',') != "" && !Separator(Join(names, ',')[0])
    ensures !Separator(Join(names, ',')[|Join(names, ',')| - 1])
  {
    assert names[0] in names && names[0][0] in names[0];
    if |names| > 1 {
      JoinStarts(names[1..]);
    } else {
      assert names[0][|names[0]| - 1] in names[0];
    }
  }

  lemma {:induction false} SplitRunsJoin(names: seq<string>)
    requires |names| > 0 && forall name | name in names :: PlainName(name)
    ensures SplitRuns(Join(names, ',')) == names
  {
    assert names[0] in names;
    if |names| == 1 {
      SplitRunsPlain(names[0], "");
    } else {
      JoinStarts(names[1..]);
      SplitRunsPlain(names[0], Join(names[1..], ','));
      SplitRunsJoin(names[1..]);
    }
  }

  lemma JoinedNamesAreSelected(names: seq<string>)
    requires Listed(names)
    ensures Selected(names, Join(names, ','))
  {
    JoinStarts(names);
    SplitRunsJoin(names);
    StripPlain(Join(names, ','));
  }

  // A list that can be printed and read back.
  ghost predicate Listed(names: seq<string>) {
    |names| > 0 && Distinct(names) && forall name | name in names :: PlainName(name)
  }

  // Letters, digits and underscores.
  ghost predicate Word(name: string) {
    forall i | 0 <= i < |name| :: '0' <= name[i] <= 'z'
  }

  ghost predicate WordAt(names: seq<string>, i: nat) {
    i < |names| ==> Word(names[i])
  }

  // Names told apart by their length or their second letter.
  ghost predicate ToldApart(names: seq<string>) {
    && (forall i | 0 <= i < |names| :: |names[i]| > 1)
    && forall i, j | 0 <= i < j < |names| :: |names[i]| != |names[j]| || names[i][1] != names[j][1]
  }

  // Up to six such words.
  ghost predicate Spelled(names: seq<string>) {
    && 0 < |names| <= 6
    && WordAt(names, 0) && WordAt(names, 1) && WordAt(names, 2)
    && WordAt(names, 3) && WordAt(names, 4) && WordAt(names, 5)
    && ToldApart(names)
  }

  lemma SpelledIsListed(names: seq<string>)
    requires Spelled(names)
    ensures Listed(names)
  {
    forall name | name in names
      ensures PlainName(name)
    {
      assert Word(name);
    }
  }

  lemma Spelled0() ensures Spelled(CHECKS_0) { }
  lemma Spelled1() ensures Spelled(CHECKS_1) { }
  lemma Spelled2() ensures Spelled(CHECKS_2) { }
  lemma Spelled3() ensures Spelled(CHECKS_3) { }
  lemma Spelled4() ensures Spelled(CHECKS_4) { }
  lemma Spelled5() ensures Spelled(CHECKS_5) { }
  lemma Spelled6() ensures Spelled(CHECKS_6) { }
  lemma Spelled7() ensures Spelled(CHECKS_7) { }
  lemma Spelled8() ensures Spelled(CHECKS_8) { }
  lemma Spelled9() ensures Spelled(CHECKS_9) { }
  lemma L3ChecksApart() ensures ToldApart(L3_CHECKS) { }
  lemma L3ChecksSpelled() ensures Spelled(L3_CHECKS) { L3ChecksApart(); hide ToldApart; }
  lemma OperatorChecksSpelled() ensures Spelled(OPERATOR_CHECKS) { }
  lemma ScopeChecksSpelled() ensures Spelled(SCOPE_CHECKS) { }
  lemma DatabaseChecksSpelled() ensures Spelled(DATABASE_CHECKS) { }
  lemma CapacityChecksSpelled() ensures Spelled(CAPACITY_CHECKS) { }
  lemma AccessChecksSpelled() ensures Spelled(ACCESS_CHECKS) { }
  lemma ContentChecksSpelled() ensures Spelled(CONTENT_CHECKS) { }
  lemma NativeChecksSpelled() ensures Spelled(AuditChecks(true, true)) { }
  lemma SharedChecksSpelled() ensures Spelled(AuditChecks(false, false)) { }

  lemma AuditChecksSpelled(observed: bool, native: bool)
    ensures Spelled(AuditChecks(observed, native))
  {
    NativeChecksSpelled();
    SharedChecksSpelled();
    hide Word;
  }

  lemma TableSpelled(stage: nat)
    requires stage < 10
    ensures Spelled(CheckTable(stage))
  {
    hide Spelled;
    match stage
    case 0 => Spelled0();
    case 1 => Spelled1();
    case 2 => Spelled2();
    case 3 => Spelled3();
    case 4 => Spelled4();
    case 5 => Spelled5();
    case 6 => Spelled6();
    case 7 => Spelled7();
    case 8 => Spelled8();
    case _ => Spelled9();
  }

  // Every stage has checks, each of them once and under a plain name.
  lemma ChecksAreListed(config: Config, single: bool, stage: nat)
    requires stage < 10
    ensures Listed(StageChecks(config, single, stage))
  {
    hide Spelled, Listed, Greenfield, Native;
    TableSpelled(stage);
    L3ChecksSpelled();
    AuditChecksSpelled(Observability in config.fields, Native(config));
    OperatorChecksSpelled();
    ScopeChecksSpelled();
    DatabaseChecksSpelled();
    CapacityChecksSpelled();
    AccessChecksSpelled();
    ContentChecksSpelled();
    SpelledIsListed(StageChecks(config, single, stage));
  }

  // The checklist a summary prints for a stage, pasted back, selects every check of
  // the stage.
  lemma PrintedChecklistIsSelected(config: Config, single: bool, stage: nat)
    requires stage < 10
    ensures Selected(StageChecks(config, single, stage), Join(StageChecks(config, single, stage), ','))
  {
    ChecksAreListed(config, single, stage);
    JoinedNamesAreSelected(StageChecks(config, single, stage));
  }

  // A drafted checklist, reviewed within a week, is confirmed by its operator.
  lemma DraftIsConfirmable(ctx: Context, login: string, stage: int, age: nat, items: string, notes: string, actor: Actor)
    requires Active(ctx.config, stage) && age <= WEEK && Operator(ctx, login, actor)
    requires Selected(StageChecks(ctx.config, ctx.single, stage), items)
    requires 12 <= |Strip(notes)| <= 4000 && !Includes(Upper(notes), "REPLACE")
    ensures Confirmed(ctx, login, stage, DraftReport(ctx.(now := ctx.now - age), stage), items, notes, actor).Some?
  {
    hide StageChecks, Strip, Includes, Upper, Selected, Operator, StageFingerprint;
  }

  // So with the printed checklist pasted back the draft is confirmed, and what comes
  // out passes.
  lemma PrintedDraftPasses(ctx: Context, login: string, stage: int, age: nat, notes: string, actor: Actor)
    requires Active(ctx.config, stage) && age <= WEEK && Operator(ctx, login, actor)
    requires 12 <= |Strip(notes)| <= 4000 && !Includes(Upper(notes), "REPLACE")
    ensures var draft := DraftReport(ctx.(now := ctx.now - age), stage);
            var items := Join(StageChecks(ctx.config, ctx.single, stage), ',');
            var confirmed := Confirmed(ctx, login, stage, draft, items, notes, actor);
            confirmed.Some? && Passed(ctx, stage, confirmed.value)
  {
    hide Strip, Includes, Upper, Selected, Operator, StageFingerprint, Passed, Confirmed;
    var items := Join(StageChecks(ctx.config, ctx.single, stage), ',');
    PrintedChecklistIsSelected(ctx.config, ctx.single, stage);
    DraftIsConfirmable(ctx, login, stage, age, items, notes, actor);
    ConfirmedPasses(ctx, login, stage, DraftReport(ctx.(now := ctx.now - age), stage), items, notes, actor);
  }

  // Unconfirmed, it never passes.
  lemma DraftIsPending(ctx: Context, stage: int)
    requires Active(ctx.config, stage)
    ensures !Passed(ctx, stage, DraftReport(ctx, stage))
  {
    ChecksAreListed(ctx.config, ctx.single, stage);
    hide StageChecks, StageFingerprint;
    var checks := StageChecks(ctx.config, ctx.single, stage);
    assert checks[0] in NamesOf(checks);
    assert DraftReport(ctx, stage).checks[checks[0]].status == "pending";
    assert "pending"[1] != "passed"[1];
  }

  /****** Recording ******/

  function InsertItem(item: Item, items: seq<Item>): seq<Item>
    requires item.Item? && forall x | x in items :: x.Item?
    ensures forall x | x in InsertItem(item, items) :: x.Item?
  {
    if items == [] || item.stage <= items[0].stage then [item] + items else [items[0]] + InsertItem(item, items[1..])
  }

  // records.sort(key=stage).
  function SortItems(items: seq<Item>): seq<Item>
    requires forall x | x in items :: x.Item?
    ensures forall x | x in SortItems(items) :: x.Item?
  {
    if items == [] then [] else InsertItem(items[0], SortItems(items[1..]))
  }

  function Earlier(items: seq<Item>, stage: int): seq<Item> {
    if items == [] then []
    else
      var before, last := Earlier(items[..|items| - 1], stage), items[|items| - 1];
      if last.Item? && last.stage < stage then before + [last] else before
  }

  function RecordOf(ctx: Context, stage: nat, report: Report, url: string, approvers: seq<string>): Item
    requires stage < 10
  {
    Item(stage, EnvironmentOf(ctx.config), StageConfig, OfStage(StageFingerprint(ctx.config, stage)), ctx.revision,
         ApprovalMode(ctx), "passed", StageChecks(ctx.config, ctx.single, stage), approvers, report.observed, url, true)
  }

  function NextStage(config: Config, stage: int): int
    decreases 10 - stage
  {
    if stage >= 9 then 10 else if Active(config, stage + 1) then stage + 1 else NextStage(config, stage + 1)
  }

  lemma {:induction false} EarlierItems(items: seq<Item>, stage: int)
    ensures forall x :: x in Earlier(items, stage) <==> x in items && x.Item? && x.stage < stage
  {
    if items != [] {
      EarlierItems(items[..|items| - 1], stage);
      assert items == items[..|items| - 1] + [items[|items| - 1]];
    }
  }

  // record_evidence; nothing when it refuses.
  function Recorded(ctx: Context, stage: int, previous: seq<Item>, report: Report, url: string, approvers: seq<string>): Option<seq<Item>> {
    var predecessors := Earlier(previous, stage);
    if (exists x | x in previous :: x.NotARecord?) || !Opens(ctx, predecessors, stage) || !Passed(ctx, stage, report) then None
    else
      EarlierItems(previous, stage);
      var records := SortItems(predecessors + [RecordOf(ctx, stage, report, url, approvers)]);
      if Opens(ctx, records, NextStage(ctx.config, stage)) then Some(records) else None
  }

  /****** The ledger ******/

  predicate Ascending(items: seq<Item>) {
    (forall x | x in items :: x.Item?) && forall i, j | 0 <= i < j < |items| :: items[i].Item? && items[j].Item? && items[i].stage <= items[j].stage
  }

  function StageList(items: seq<Item>): seq<int>
    requires forall x | x in items :: x.Item?
  {
    seq(|items|, i requires 0 <= i < |items| && items[i].Item? => items[i].stage)
  }

  lemma {:induction false} InsertItemBag(item: Item, items: seq<Item>)
    requires item.Item? && forall x | x in items :: x.Item?
    ensures multiset(InsertItem(item, items)) == multiset(items) + multiset{item}
  {
    if items != [] && item.stage > items[0].stage {
      InsertItemBag(item, items[1..]);
      assert items == [items[0]] + items[1..];
    }
  }

  // What is inserted into the rest is not below the head.
  lemma InsertItemAbove(item: Item, items: seq<Item>, least: int)
    requires item.Item? && least <= item.stage && forall x | x in items :: x.Item? && least <= x.stage
    ensures forall x | x in InsertItem(item, items) :: least <= x.stage
  {
    InsertItemBag(item, items);
    forall x | x in InsertItem(item, items)
      ensures least <= x.stage
    {
      assert x in multiset(InsertItem(item, items));
      assert x == item || x in items;
    }
  }

  lemma ConsAscends(head: Item, tail: seq<Item>)
    requires head.Item? && Ascending(tail) && forall x | x in tail :: x.Item? && head.stage <= x.stage
    ensures Ascending([head] + tail)
  {
    var items := [head] + tail;
    forall i, j | 0 <= i < j < |items|
      ensures items[i].Item? && items[j].Item? && items[i].stage <= items[j].stage
    {
      assert items[j] == tail[j - 1] && tail[j - 1] in tail;
      assert i > 0 ==> items[i] == tail[i - 1];
    }
  }

  lemma {:induction false} InsertItemSorts(item: Item, items: seq<Item>)
    requires item.Item? && Ascending(items)
    ensures Ascending(InsertItem(item, items))
  {
    if items != [] { HeadIsLeast(items); }
    hide Ascending;
    if items == [] || item.stage <= items[0].stage {
      ConsAscends(item, items);
    } else {
      InsertItemSorts(item, items[1..]);
      InsertItemAbove(item, items[1..], items[0].stage);
      ConsAscends(items[0], InsertItem(item, items[1..]));
    }
  }

  lemma HeadIsLeast(items: seq<Item>)
    requires items != [] && Ascending(items)
    ensures Ascending(items[1..])
    ensures forall x | x in items :: x.Item? && items[0].Item? && items[0].stage <= x.stage
    ensures forall x | x in items[1..] :: x.Item? && items[0].stage <= x.stage
  {
    forall x | x in items
      ensures x.Item? && items[0].Item? && items[0].stage <= x.stage
    {
      var i :| 0 <= i < |items| && items[i] == x;
      assert i > 0 ==> items[0].stage <= items[i].stage;
    }
    assert forall x | x in items[1..] :: x in items;
  }

  lemma {:induction false} SortItemsSorts(items: seq<Item>)
    requires forall x | x in items :: x.Item?
    ensures Ascending(SortItems(items)) && multiset(SortItems(items)) == multiset(items)
  {
    if items != [] {
      SortItemsSorts(items[1..]);
      InsertItemSorts(items[0], SortItems(items[1..]));
      InsertItemBag(items[0], SortItems(items[1..]));
      assert items == [items[0]] + items[1..];
    }
  }

  predicate Increasing(s: seq<int>) {
    forall i, j | 0 <= i < j < |s| :: s[i] < s[j]
  }

  lemma LastIsGreatest(s: seq<int>, x: int)
    requires Increasing(s) && x in s
    ensures x <= s[|s| - 1]
    ensures x in s[..|s| - 1] <==> x < s[|s| - 1]
  {
    var i :| 0 <= i < |s| && s[i] == x;
    assert i < |s| - 1 ==> s[..|s| - 1][i] == x;
  }

  lemma SomeElement(s: seq<int>) returns (x: int)
    requires s != []
    ensures x in s
  {
    x := s[0];
  }

  // Two increasing lists with the same elements are the same.
  lemma {:induction false} IncreasingOnce(a: seq<int>, b: seq<int>)
    requires Increasing(a) && Increasing(b) && forall x :: x in a <==> x in b
    ensures a == b
  {
    if a == [] {
      if b != [] { var x := SomeElement(b); }
    } else if b == [] {
      var x := SomeElement(a);
    } else {
      var last := a[|a| - 1];
      LastIsGreatest(b, last);
      LastIsGreatest(a, b[|b| - 1]);
      var p, q := a[..|a| - 1], b[..|b| - 1];
      forall x
        ensures x in p <==> x in q
      {
        if x in a { LastIsGreatest(a, x); LastIsGreatest(b, x); }
      }
      IncreasingOnce(p, q);
      assert a == p + [last] && b == q + [last];
    }
  }

  lemma {:induction false} ActiveBelowElements(config: Config, bound: nat)
    ensures forall x :: x in ActiveBelow(config, bound) <==> x < bound && Active(config, x)
    ensures Increasing(ActiveBelow(config, bound))
  {
    hide Active;
    if bound > 0 {
      ActiveBelowElements(config, bound - 1);
      var before := ActiveBelow(config, bound - 1);
      assert forall i | 0 <= i < |before| :: before[i] in before;
    }
    assert forall x | Active(config, x) :: x >= 0 by { ActiveAtLeast(config); }
  }

  lemma ActiveAtLeast(config: Config)
    ensures forall x | Active(config, x) :: 0 <= x < 10
  {
  }

  lemma {:induction false} NextStageSkips(config: Config, stage: int)
    requires stage < 10
    ensures stage < NextStage(config, stage) <= 10
    ensures forall x | stage < x < NextStage(config, stage) :: !Active(config, x)
    decreases 10 - stage
  {
    if stage < 9 && !Active(config, stage + 1) { NextStageSkips(config, stage + 1); }
  }

  // From any previous list, a successful recording leaves exactly the active stages
  // up to the recorded one, each once and in order; every record is accepted for its
  // own stage, the new one is last and the others are the earlier records.
  lemma LedgerIsExact(ctx: Context, stage: int, previous: seq<Item>, report: Report, url: string, approvers: seq<string>)
    requires Recorded(ctx, stage, previous, report, url, approvers).Some?
    ensures Active(ctx.config, stage)
    ensures var records := Recorded(ctx, stage, previous, report, url, approvers).value;
            && Ascending(records) && StageList(records) == ActiveBelow(ctx.config, stage + 1)
            && (forall x | x in records :: Accepted(ctx, x))
            && multiset(records) == multiset(Earlier(previous, stage)) + multiset{RecordOf(ctx, stage, report, url, approvers)}
            && records[|records| - 1] == RecordOf(ctx, stage, report, url, approvers)
  {
    hide Accepted, Passed, StageChecks, Active, ActiveBelow, NextStage;
    var predecessors, record := Earlier(previous, stage), PassedRecord(ctx, stage, report, url, approvers);
    var records := Recorded(ctx, stage, previous, report, url, approvers).value;
    EarlierItems(previous, stage);
    SortItemsSorts(predecessors + [record]);
    NextStageSkips(ctx.config, stage);
    RecordsAre(ctx, records, predecessors, record);
    StagesExact(ctx, stage, records);
    LastIs(records, record);
  }

  // The new record, with what its report guarantees.
  function PassedRecord(ctx: Context, stage: int, report: Report, url: string, approvers: seq<string>): (record: Item)
    requires Passed(ctx, stage, report)
    ensures Active(ctx.config, stage) && 0 <= stage < 10 && record == RecordOf(ctx, stage, report, url, approvers)
  {
    RecordOf(ctx, stage, report, url, approvers)
  }

  lemma RecordsAre(ctx: Context, records: seq<Item>, predecessors: seq<Item>, record: Item)
    requires multiset(records) == multiset(predecessors) + multiset{record}
    ensures forall x :: x in records <==> x in predecessors || x == record
  {
    forall x
      ensures x in records <==> x in predecessors || x == record
    {
      assert x in records <==> x in multiset(records);
    }
  }

  lemma StagesExact(ctx: Context, stage: int, records: seq<Item>)
    requires 0 <= stage < 10 && Ascending(records) && Opens(ctx, records, NextStage(ctx.config, stage))
    requires forall x | x in records :: x.stage <= stage
    ensures StageList(records) == ActiveBelow(ctx.config, stage + 1)
  {
    hide Accepted, Active;
    NextStageSkips(ctx.config, stage);
    ActiveBelowElements(ctx.config, stage + 1);
    var list := StageList(records);
    forall i, j | 0 <= i < j < |list|
      ensures list[i] < list[j]
    {
      assert records[i] in records && records[j] in records;
    }
    forall x
      ensures x in list <==> x < stage + 1 && Active(ctx.config, x)
    {
      if x in list {
        var i :| 0 <= i < |list| && list[i] == x;
        assert records[i] in records;
        AcceptedIsActive(ctx, records[i]);
      }
      if x < stage + 1 && Active(ctx.config, x) {
        ActiveAtLeast(ctx.config);
        assert x in StagesOf(records);
        var item :| item in records && item.Item? && item.stage == x;
        var i :| 0 <= i < |records| && records[i] == item;
        assert list[i] == x;
      }
    }
    IncreasingOnce(list, ActiveBelow(ctx.config, stage + 1));
  }

  lemma AcceptedIsActive(ctx: Context, item: Item)
    requires Accepted(ctx, item)
    ensures Active(ctx.config, item.stage)
  {
  }

  lemma LastIs(records: seq<Item>, record: Item)
    requires Ascending(records) && record in records
    requires forall x | x in records && x != record :: x.stage < record.stage
    ensures records[|records| - 1] == record
  {
    var i :| 0 <= i < |records| && records[i] == record;
    assert records[|records| - 1] in records;
  }

  // Recording a stage again truncates a ledger at it.
  lemma RecordingTruncates(ctx: Context, stage: int, previous: seq<Item>, report: Report, url: string, approvers: seq<string>, k: nat)
    requires Recorded(ctx, stage, previous, report, url, approvers).Some?
    requires Ascending(previous) && k <= |previous|
    requires forall i | 0 <= i < |previous| :: i < k <==> previous[i].stage < stage
    ensures Recorded(ctx, stage, previous, report, url, approvers).value
            == previous[..k] + [RecordOf(ctx, stage, report, url, approvers)]
  {
    hide Opens, Passed, StageChecks;
    EarlierPrefix(previous, stage, k);
    var record := PassedRecord(ctx, stage, report, url, approvers);
    SortItemsFixes(previous[..k] + [record]);
  }

  lemma {:induction false} EarlierPrefix(items: seq<Item>, stage: int, k: nat)
    requires k <= |items| && (forall x | x in items :: x.Item?)
    requires forall i | 0 <= i < |items| :: i < k <==> items[i].stage < stage
    ensures Earlier(items, stage) == items[..k]
  {
    if items != [] {
      var last := |items| - 1;
      assert items[last] in items;
      EarlierPrefix(items[..last], stage, if k > last then last else k);
      if k > last { assert items[..k] == items[..last] + [items[last]]; } else { assert items[..last][..k] == items[..k]; }
    }
  }

  lemma {:induction false} SortItemsFixes(items: seq<Item>)
    requires Ascending(items)
    ensures SortItems(items) == items
  {
    if items != [] {
      assert Ascending(items[1..]) by { assert forall x | x in items[1..] :: x in items; }
      SortItemsFixes(items[1..]);
      assert items == [items[0]] + items[1..];
    }
  }

  // No record outlives a change its stage is bound to: whatever configuration a stage
  // was recorded under, the ledger is only extended under one with the same content
  // for that stage.
  lemma StaleRecordsAreRefused(ctx: Context, was: Context, stage: int, earlier: nat, previous: seq<Item>, report: Report,
                               url: string, approvers: seq<string>, former: Report, formerUrl: string, formerApprovers: seq<string>)
    requires Recorded(ctx, stage, previous, report, url, approvers).Some? && earlier < stage
    requires earlier < 10 && RecordOf(was, earlier, former, formerUrl, formerApprovers) in previous
    ensures Scoped(was.config, earlier) == Scoped(ctx.config, earlier)
    ensures !ctx.single ==> was.revision == ctx.revision
  {
    hide StageChecks, Passed, Scoped;
    EarlierItems(previous, stage);
    var item := RecordOf(was, earlier, former, formerUrl, formerApprovers);
    assert item in Earlier(previous, stage) && Accepted(ctx, item);
  }

  /****** When recording succeeds ******/

  lemma {:induction false} InsertItemDistinct(item: Item, items: seq<Item>)
    requires item.Item? && (forall x | x in items :: x.Item? && x.stage != item.stage) && DistinctStages(items)
    ensures DistinctStages(InsertItem(item, items))
  {
    if items != [] && item.stage > items[0].stage {
      var rest := items[1..];
      assert forall x | x in rest :: x in items;
      InsertItemDistinct(item, rest);
      InsertItemBag(item, rest);
      forall k | 0 <= k < |InsertItem(item, rest)|
        ensures items[0].stage != InsertItem(item, rest)[k].stage
      {
        var x := InsertItem(item, rest)[k];
        assert x in multiset(InsertItem(item, rest));
        assert x == item || x in rest;
        if x in rest { var j :| 0 <= j < |rest| && rest[j] == x; assert items[j + 1] == x; }
      }
    }
  }

  lemma {:induction false} SortItemsDistinct(items: seq<Item>)
    requires (forall x | x in items :: x.Item?) && DistinctStages(items)
    ensures DistinctStages(SortItems(items))
  {
    if items != [] {
      var rest := items[1..];
      SortItemsDistinct(rest);
      SortItemsSorts(rest);
      forall x | x in SortItems(rest)
        ensures x.stage != items[0].stage
      {
        assert x in multiset(rest);
        var j :| 0 <= j < |rest| && rest[j] == x;
        assert items[j + 1] == x;
      }
      InsertItemDistinct(items[0], SortItems(rest));
    }
  }

  lemma RecordsOpen(ctx: Context, predecessors: seq<Item>, record: Item, stage: int)
    requires record.Item? && record.stage == stage && Opens(ctx, predecessors, stage) && Accepted(ctx, record)
    requires forall x | x in predecessors :: x.Item? && x.stage < stage
    ensures Opens(ctx, SortItems(predecessors + [record]), NextStage(ctx.config, stage))
  {
    hide Accepted, NextStage;
    AcceptedIsActive(ctx, record);
    ActiveAtLeast(ctx.config);
    hide Active, IsRevision;
    var records := SortItems(predecessors + [record]);
    SortItemsSorts(predecessors + [record]);
    RecordsAre(ctx, records, predecessors, record);
    SortItemsDistinct(predecessors + [record]);
    NextStageSkips(ctx.config, stage);
    NextIsActive(ctx.config, stage);
    forall earlier | 0 <= earlier < NextStage(ctx.config, stage) && Active(ctx.config, earlier)
      ensures earlier in StagesOf(records)
    {
      if earlier < stage {
        var x :| x in predecessors && x.Item? && x.stage == earlier;
        assert x in records;
      } else {
        assert earlier == stage && record in records;
      }
    }
  }

  lemma {:induction false} NextIsActive(config: Config, stage: int)
    requires -1 <= stage < 10
    ensures NextStage(config, stage) == 10 || Active(config, NextStage(config, stage))
    decreases 10 - stage
  {
    if stage < 9 && !Active(config, stage + 1) { NextIsActive(config, stage + 1); }
  }

  // The closing validation of the whole list only tests what is new: the approvals,
  // the time of observation and the reference of the report.
  lemma RecordingSucceeds(ctx: Context, stage: int, previous: seq<Item>, report: Report, url: string, approvers: seq<string>)
    requires (forall x | x in previous :: x.Item?) && Opens(ctx, Earlier(previous, stage), stage) && Passed(ctx, stage, report)
    ensures Recorded(ctx, stage, previous, report, url, approvers).Some? <==>
              && Approved(ctx, approvers) && ctx.url(url)
              && report.observed.Some? && ctx.now - WEEK <= report.observed.value <= ctx.now
  {
    hide StageChecks, StageFingerprint, Approved, IsRevision;
    var record := PassedRecord(ctx, stage, report, url, approvers);
    assert Accepted(ctx, record) <==>
             Approved(ctx, approvers) && ctx.url(url) && report.observed.Some? && ctx.now - WEEK <= report.observed.value <= ctx.now;
    hide Active, Passed, Accepted, NextStage;
    var predecessors := Earlier(previous, stage);
    EarlierItems(previous, stage);
    if Accepted(ctx, record) { RecordsOpen(ctx, predecessors, record, stage); }
    SortItemsSorts(predecessors + [record]);
    RecordsAre(ctx, SortItems(predecessors + [record]), predecessors, record);
    assert Recorded(ctx, stage, previous, report, url, approvers).Some? ==> record in SortItems(predecessors + [record]);
  }
}
