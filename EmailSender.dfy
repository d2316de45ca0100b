/** The e-mail sender: how `send` turns a batch of trends into one message,
    and how `send_for_subscriptions` fans unsent trends out to subscribers by
    tag, flips `notified` after a committed delivery and keeps its counters.
    The SMTP server is an oracle (`smtp(k)` is the server's answer on the
    k-th call to send), and so are exceptions raised inside the try block
    (`faults(k)`). */
module EmailSender {
  import opened Wrappers
  import opened Strings
  import opened SqlStore

  // =====================================================================
  // send: message composition
  // =====================================================================

  datatype SmtpConfig = SmtpConfig(host: string, port: nat, username: string, password: string, fromAddress: string)

  /** configure(): the Gmail submission server, the account as sender. */
  function Configure(user: string, pass: string): SmtpConfig {
    SmtpConfig("smtp.gmail.com", 587, user, pass, user)
  }

  /** One trend as it is put in a message. */
  datatype Payload = Payload(topic: string, summary: Option<string>, url: Option<string>)

  datatype Email = Email(sender: string, recipient: string, subject: string, body: string)

  /** A nullable value inside a Python f-string: None prints as "None". */
  function Show(v: Option<string>): string {
    match v
    case Some(s) => s
    case None => "None"
  }

  function Subject(trends: seq<Payload>): string
    requires |trends| >= 1
  {
    if |trends| == 1 then "New Trend: " + trends[0].topic
    else NatToString(|trends|) + " New Trends for You"
  }

  /** The four lines of one trend numbered `n`: the numbered topic, the
      indented summary, the indented link, an empty line. */
  function TrendLines(p: Payload, n: nat): seq<string> {
    [NatToString(n) + ". " + p.topic, "   " + Show(p.summary), "   Read more: " + Show(p.url), ""]
  }

  /** The lines of all trends, numbered from `first`. */
  function BodyLines(trends: seq<Payload>, first: nat): seq<string> {
    if |trends| == 0 then [] else TrendLines(trends[0], first) + BodyLines(trends[1..], first + 1)
  }

  function Body(trends: seq<Payload>): string {
    Join(BodyLines(trends, 1), '\n')
  }

  /** The message send() builds, or None when there is nothing to send. */
  function Outgoing(cfg: SmtpConfig, to: string, trends: Option<seq<Payload>>): (m: Option<Email>)
    ensures m.None? <==> trends.GetOr([]) == []
    ensures m.Some? ==> m.value.sender == cfg.fromAddress && m.value.recipient == to
  {
    var ts := trends.GetOr([]);
    if |ts| == 0 then None else Some(Email(cfg.fromAddress, to, Subject(ts), Body(ts)))
  }

  /** send(to, {"trends": trends}) with `trends` None for a missing key.
      An empty or missing list returns False without contacting the server;
      otherwise the result is the server's answer, an SMTP exception having
      been turned into False. */
  function Send(cfg: SmtpConfig, to: string, trends: Option<seq<Payload>>, smtp: Email -> bool): (ok: bool)
    ensures trends.GetOr([]) == [] ==> !ok
    ensures trends.GetOr([]) != [] ==> ok == smtp(Outgoing(cfg, to, trends).value)
  {
    match Outgoing(cfg, to, trends)
    case None => false
    case Some(m) => smtp(m)
  }

  /** The body has four lines per trend, and lines 4k to 4k+3 are those of
      the k-th trend, numbered first + k. */
  lemma {:induction false} BodyLinesShape(trends: seq<Payload>, first: nat, k: nat)
    requires k < |trends|
    ensures |BodyLines(trends, first)| == 4 * |trends|
    ensures BodyLines(trends, first)[4 * k..4 * k + 4] == TrendLines(trends[k], first + k)
    decreases k
  {
    BodyLinesLength(trends, first);
    var rest := BodyLines(trends[1..], first + 1);
    if k > 0 {
      BodyLinesShape(trends[1..], first + 1, k - 1);
      assert BodyLines(trends, first)[4 * k..4 * k + 4] == rest[4 * (k - 1)..4 * (k - 1) + 4];
    }
  }

  lemma {:induction false} BodyLinesLength(trends: seq<Payload>, first: nat)
    ensures |BodyLines(trends, first)| == 4 * |trends|
    decreases |trends|
  {
    if |trends| > 0 {
      BodyLinesLength(trends[1..], first + 1);
    }
  }

  predicate NoNewline(s: string) {
    '\n' !in s
  }

  predicate SingleLineFields(p: Payload) {
    NoNewline(p.topic) && NoNewline(Show(p.summary)) && NoNewline(Show(p.url))
  }

  lemma {:induction false} BodyLinesSingle(trends: seq<Payload>, first: nat)
    requires forall k :: 0 <= k < |trends| ==> SingleLineFields(trends[k])
    ensures forall j :: 0 <= j < |BodyLines(trends, first)| ==> NoNewline(BodyLines(trends, first)[j])
    decreases |trends|
  {
    if |trends| > 0 {
      BodyLinesSingle(trends[1..], first + 1);
      var digits := NatToString(first);
      assert forall c :: c in digits ==> c != '\n';
      assert SingleLineFields(trends[0]);
    }
  }

  /** A recipient can split the body at line breaks and get every trend's
      four lines back, when no field itself contains a line break; the
      subject names the single trend, or else the count. */
  lemma MessageLines(cfg: SmtpConfig, to: string, trends: seq<Payload>)
    requires |trends| >= 1
    requires forall k :: 0 <= k < |trends| ==> SingleLineFields(trends[k])
    ensures var m := Outgoing(cfg, to, Some(trends)).value;
      && Split(m.body, '\n') == BodyLines(trends, 1)
      && |Split(m.body, '\n')| == 4 * |trends|
      && (|trends| == 1 ==> m.subject == "New Trend: " + trends[0].topic)
      && (|trends| != 1 ==> m.subject == NatToString(|trends|) + " New Trends for You")
  {
    BodyLinesLength(trends, 1);
    BodyLinesSingle(trends, 1);
    SplitJoin(BodyLines(trends, 1), '\n');
  }

  // =====================================================================
  // send_for_subscriptions: the specification of one pass
  // =====================================================================

  /** An exception raised inside the try block of one delivery attempt. */
  datatype Fault =
    | NoFault         // send returns normally; after True the commit succeeds
    | RaisedInSend    // send itself raises before reaching the server
    | RaisedAtCommit  // send returned True, then the commit raises

  /** How one attempt ended. */
  datatype Outcome =
    | Delivered       // send returned True and the flags were committed
    | Refused         // send returned False: nothing is counted, nothing changes
    | FailedInSend    // send raised: counted as failed, rolled back
    | FailedAtCommit  // sent and counted as sent, then the commit raised: also counted as failed, rolled back

  datatype Attempt = Attempt(recipient: string, batch: seq<Trend>, outcome: Outcome)

  datatype Report = Report(sentCount: nat, failedCount: nat, totalSubscriptions: nat)

  /** The state of a pass: the trend rows (the only table a pass writes), the
      two counters, and the log of calls to send. */
  datatype Pass = Pass(trends: seq<Trend>, sent: nat, failed: nat, log: seq<Attempt>)

  /** A subscription's tag ids: the tags its association rows point at. */
  function TagIdsOf(links: set<(nat, nat)>, subscriptionId: nat): set<nat> {
    set p | p in links && p.0 == subscriptionId :: p.1
  }

  /** The trend query's condition: not yet notified, and tagged with at least
      one of `tagIds`. */
  predicate Eligible(t: Trend, trendTags: set<(nat, nat)>, tagIds: set<nat>) {
    !t.notified && exists g :: g in tagIds && (t.id, g) in trendTags
  }

  /** The trend query of one subscriber: the trends not yet notified that
      carry one of the subscriber's tags, one row per trend, in table order. */
  function Batch(trends: seq<Trend>, trendTags: set<(nat, nat)>, tagIds: set<nat>): (b: seq<Trend>)
    ensures forall t :: t in b <==> t in trends && Eligible(t, trendTags, tagIds)
    ensures |b| <= |trends|
  {
    if |trends| == 0 then []
    else (if Eligible(trends[0], trendTags, tagIds) then [trends[0]] else [])
         + Batch(trends[1..], trendTags, tagIds)
  }

  function IdSet(ts: seq<Trend>): set<nat> {
    set t | t in ts :: t.id
  }

  function Payloads(ts: seq<Trend>): seq<Payload> {
    seq(|ts|, i requires 0 <= i < |ts| => Payload(ts[i].topic, ts[i].summary, ts[i].url))
  }

  /** One iteration of the loop over subscriptions. */
  function Visit(p: Pass, tbl: Tables, sub: Subscription, cfg: SmtpConfig,
                 smtp: nat -> Email -> bool, faults: nat -> Fault): Pass
  {
    var tagIds := TagIdsOf(tbl.subscriptionTags, sub.id);
    if tagIds == {} then p
    else
      var batch := Batch(p.trends, tbl.trendTags, tagIds);
      if batch == [] then p
      else
        var k, n := |p.log|, |batch|;
        if faults(k) == RaisedInSend then
          p.(failed := p.failed + n, log := p.log + [Attempt(sub.email, batch, FailedInSend)])
        else if !Send(cfg, sub.email, Some(Payloads(batch)), smtp(k)) then
          p.(log := p.log + [Attempt(sub.email, batch, Refused)])
        else if faults(k) == RaisedAtCommit then
          p.(sent := p.sent + n, failed := p.failed + n, log := p.log + [Attempt(sub.email, batch, FailedAtCommit)])
        else
          Pass(Flag(p.trends, IdSet(batch)), p.sent + n, p.failed, p.log + [Attempt(sub.email, batch, Delivered)])
  }

  /** The pass after visiting the first `n` subscriptions. */
  function Run(tbl: Tables, subs: seq<Subscription>, n: nat, cfg: SmtpConfig,
               smtp: nat -> Email -> bool, faults: nat -> Fault): Pass
    requires n <= |subs|
  {
    if n == 0 then Pass(tbl.trends, 0, 0, [])
    else Visit(Run(tbl, subs, n - 1, cfg, smtp, faults), tbl, subs[n - 1], cfg, smtp, faults)
  }

  /** A whole pass over the subscriptions loaded at its start. */
  function FanOut(tbl: Tables, cfg: SmtpConfig, smtp: nat -> Email -> bool, faults: nat -> Fault): Pass {
    Run(tbl, tbl.subscriptions, |tbl.subscriptions|, cfg, smtp, faults)
  }

  // ---------------------------------------------------------------------
  // The pass as written: a rollback ends it at the next subscription
  // ---------------------------------------------------------------------

  /** The outcomes after which the loop calls `db.rollback()`. */
  predicate RolledBack(o: Outcome) {
    o == FailedInSend || o == FailedAtCommit
  }

  /** A pass as the code runs it. A rollback expires every object the
      session has loaded, the subscriptions included (`expire_on_commit`
      only concerns commits). Reading the next subscription's email then
      needs a lazy load, which an async session refuses by raising, outside
      the try: the pass ends there with an exception (`raised`). */
  datatype RunState = RunState(pass: Pass, expired: bool, raised: bool)

  function VisitAsWritten(s: RunState, tbl: Tables, sub: Subscription, cfg: SmtpConfig,
                          smtp: nat -> Email -> bool, faults: nat -> Fault): RunState
  {
    if s.raised then s
    else if s.expired then s.(raised := true)
    else
      var q := Visit(s.pass, tbl, sub, cfg, smtp, faults);
      RunState(q, |q.log| > |s.pass.log| && RolledBack(q.log[|q.log| - 1].outcome), false)
  }

  function RunAsWritten(tbl: Tables, subs: seq<Subscription>, n: nat, cfg: SmtpConfig,
                        smtp: nat -> Email -> bool, faults: nat -> Fault): RunState
    requires n <= |subs|
  {
    if n == 0 then RunState(Pass(tbl.trends, 0, 0, []), false, false)
    else VisitAsWritten(RunAsWritten(tbl, subs, n - 1, cfg, smtp, faults), tbl, subs[n - 1], cfg, smtp, faults)
  }

  /** send_for_subscriptions as written: the report, or None when the pass
      raised. */
  function SendAsWritten(tbl: Tables, cfg: SmtpConfig, smtp: nat -> Email -> bool, faults: nat -> Fault): Option<Report> {
    var s := RunAsWritten(tbl, tbl.subscriptions, |tbl.subscriptions|, cfg, smtp, faults);
    if s.raised then None else Some(Report(s.pass.sent, s.pass.failed, |tbl.subscriptions|))
  }

  /** Until it raises, the pass as written is the pass that goes on after
      a rollback, and it reports the same counts. */
  lemma {:induction false} RunAsWrittenFollowsRun(tbl: Tables, subs: seq<Subscription>, n: nat, cfg: SmtpConfig,
                                                  smtp: nat -> Email -> bool, faults: nat -> Fault)
    requires n <= |subs|
    ensures var s := RunAsWritten(tbl, subs, n, cfg, smtp, faults);
      !s.raised ==> s.pass == Run(tbl, subs, n, cfg, smtp, faults)
  {
    if n > 0 {
      RunAsWrittenFollowsRun(tbl, subs, n - 1, cfg, smtp, faults);
    }
  }

  /** With no rollback there is nothing to raise: the report as written is
      the report of the pass. */
  lemma SendAsWrittenWithoutFaults(tbl: Tables, cfg: SmtpConfig, smtp: nat -> Email -> bool, faults: nat -> Fault)
    requires forall k :: faults(k) == NoFault
    ensures var p := FanOut(tbl, cfg, smtp, faults);
      SendAsWritten(tbl, cfg, smtp, faults) == Some(Report(p.sent, p.failed, |tbl.subscriptions|))
  {
    NoFaultNeverRaises(tbl, tbl.subscriptions, |tbl.subscriptions|, cfg, smtp, faults);
    RunAsWrittenFollowsRun(tbl, tbl.subscriptions, |tbl.subscriptions|, cfg, smtp, faults);
  }

  lemma {:induction false} NoFaultNeverRaises(tbl: Tables, subs: seq<Subscription>, n: nat, cfg: SmtpConfig,
                                              smtp: nat -> Email -> bool, faults: nat -> Fault)
    requires n <= |subs|
    requires forall k :: faults(k) == NoFault
    ensures var s := RunAsWritten(tbl, subs, n, cfg, smtp, faults);
      !s.raised && !s.expired
  {
    if n > 0 {
      NoFaultNeverRaises(tbl, subs, n - 1, cfg, smtp, faults);
      var s := RunAsWritten(tbl, subs, n - 1, cfg, smtp, faults);
      var q := Visit(s.pass, tbl, subs[n - 1], cfg, smtp, faults);
      if |q.log| > |s.pass.log| {
        assert faults(|s.pass.log|) == NoFault;
        assert !RolledBack(q.log[|q.log| - 1].outcome);
      }
    }
  }

  /** Two subscribers share the only tag of one unsent trend, and the first
      call to send raises. As written, the pass raises at the second
      subscriber and returns no report; the pass that goes on to the next
      subscriber (`FanOut`) delivers the trend to the second one and flags it. */
  lemma RollbackEndsPassAsWritten()
    ensures var tbl := Tables([Subscription(1, "a", None), Subscription(2, "b", None)], [Tag(1, "g")],
                              [Trend(1, "t", None, None, None, false)], {(1, 1), (2, 1)}, {(1, 1)});
      var cfg := Configure("u", "p");
      var smtp := (k: nat) => (m: Email) => true;
      var faults := (k: nat) => if k == 0 then RaisedInSend else NoFault;
      var p := FanOut(tbl, cfg, smtp, faults);
      && SendAsWritten(tbl, cfg, smtp, faults) == None
      && p.log == [Attempt("a", tbl.trends, FailedInSend), Attempt("b", tbl.trends, Delivered)]
      && p.trends == [Trend(1, "t", None, None, None, true)]
      && p.sent == 1 && p.failed == 1
  {
    var t := Trend(1, "t", None, None, None, false);
    var tbl := Tables([Subscription(1, "a", None), Subscription(2, "b", None)], [Tag(1, "g")],
                      [t], {(1, 1), (2, 1)}, {(1, 1)});
    var cfg := Configure("u", "p");
    var smtp := (k: nat) => (m: Email) => true;
    var faults := (k: nat) => if k == 0 then RaisedInSend else NoFault;
    assert TagIdsOf(tbl.subscriptionTags, 1) == {1} by {
      assert (1, 1) in tbl.subscriptionTags;
    }
    assert TagIdsOf(tbl.subscriptionTags, 2) == {1} by {
      assert (2, 1) in tbl.subscriptionTags;
    }
    assert Eligible(t, tbl.trendTags, {1});
    assert Batch([t], tbl.trendTags, {1}) == [t];
    var p0 := Pass([t], 0, 0, []);
    assert Run(tbl, tbl.subscriptions, 0, cfg, smtp, faults) == p0;
    assert faults(0) == RaisedInSend;
    var p1 := Pass([t], 0, 1, [Attempt("a", [t], FailedInSend)]);
    assert Visit(p0, tbl, tbl.subscriptions[0], cfg, smtp, faults) == p1;
    assert Run(tbl, tbl.subscriptions, 1, cfg, smtp, faults) == p1;
    var s1 := RunState(p1, true, false);
    assert RunAsWritten(tbl, tbl.subscriptions, 0, cfg, smtp, faults) == RunState(p0, false, false);
    assert RunAsWritten(tbl, tbl.subscriptions, 1, cfg, smtp, faults) == s1;
    assert RunAsWritten(tbl, tbl.subscriptions, 2, cfg, smtp, faults) == s1.(raised := true);
    assert faults(1) == NoFault && smtp(1)(Outgoing(cfg, "b", Some(Payloads([t]))).value);
    assert IdSet([t]) == {1};
    assert Flag([t], {1}) == [t.(notified := true)];
  }

  // =====================================================================
  // Properties of a pass
  // =====================================================================

  /** `b` is `a` with some flags switched on: same rows, same ids and
      fields, and `notified` only moves from false to true. */
  ghost predicate FlagsGrow(a: seq<Trend>, b: seq<Trend>) {
    |a| == |b| && forall i :: 0 <= i < |a| ==> b[i] == a[i] || b[i] == a[i].(notified := true)
  }

  lemma FlagGrows(ts: seq<Trend>, ids: set<nat>)
    ensures FlagsGrow(ts, Flag(ts, ids))
  {
  }

  lemma FlagsGrowTransitive(a: seq<Trend>, b: seq<Trend>, c: seq<Trend>)
    requires FlagsGrow(a, b) && FlagsGrow(b, c)
    ensures FlagsGrow(a, c)
  {
  }

  /** Sum of the batch sizes of the attempts whose outcome is in `counted`. */
  function SizeWhere(log: seq<Attempt>, counted: set<Outcome>): nat {
    if |log| == 0 then 0
    else SizeWhere(log[..|log| - 1], counted) + (if log[|log| - 1].outcome in counted then |log[|log| - 1].batch| else 0)
  }

  lemma SizeWhereAppend(log: seq<Attempt>, a: Attempt, counted: set<Outcome>)
    ensures SizeWhere(log + [a], counted) == SizeWhere(log, counted) + (if a.outcome in counted then |a.batch| else 0)
  {
    assert (log + [a])[..|log|] == log;
  }

  /** One visit: flags only grow, the log gains at most one attempt, and the
      log, counters and rows are exactly as the outcome of that attempt says. */
  lemma {:induction false} VisitEffect(p: Pass, tbl: Tables, sub: Subscription, cfg: SmtpConfig,
                                       smtp: nat -> Email -> bool, faults: nat -> Fault)
    ensures var q := Visit(p, tbl, sub, cfg, smtp, faults);
      && FlagsGrow(p.trends, q.trends)
      && (q.log == p.log ==> q == p)
      && (q.log != p.log ==>
            && |q.log| == |p.log| + 1 && q.log[..|p.log|] == p.log
            && var a := q.log[|p.log|];
            && a.recipient == sub.email
            && TagIdsOf(tbl.subscriptionTags, sub.id) != {}
            && a.batch == Batch(p.trends, tbl.trendTags, TagIdsOf(tbl.subscriptionTags, sub.id)) != []
            && q.trends == (if a.outcome == Delivered then Flag(p.trends, IdSet(a.batch)) else p.trends)
            && q.sent == p.sent + (if a.outcome in {Delivered, FailedAtCommit} then |a.batch| else 0)
            && q.failed == p.failed + (if a.outcome in {FailedInSend, FailedAtCommit} then |a.batch| else 0))
  {
    FlagGrows(p.trends, IdSet(Batch(p.trends, tbl.trendTags, TagIdsOf(tbl.subscriptionTags, sub.id))));
    var q := Visit(p, tbl, sub, cfg, smtp, faults);
    if q.log != p.log {
      assert q.log[..|p.log|] == p.log;
    }
  }

  /** The outcome a visit records is decided by the server's answer to the
      message and by where an exception escaped: delivered exactly when
      nothing raised and `send` returned True, refused exactly when `send`
      returned False without raising, failed in send exactly when it raised,
      and failed at commit exactly when `send` returned True and the commit
      raised. */
  lemma VisitOutcome(p: Pass, tbl: Tables, sub: Subscription, cfg: SmtpConfig,
                     smtp: nat -> Email -> bool, faults: nat -> Fault)
    ensures var q := Visit(p, tbl, sub, cfg, smtp, faults);
      var k := |p.log|;
      var batch := Batch(p.trends, tbl.trendTags, TagIdsOf(tbl.subscriptionTags, sub.id));
      var answer := Send(cfg, sub.email, Some(Payloads(batch)), smtp(k));
      |q.log| > k ==>
        var o := q.log[k].outcome;
        && (o == Delivered <==> faults(k) == NoFault && answer)
        && (o == Refused <==> faults(k) != RaisedInSend && !answer)
        && (o == FailedInSend <==> faults(k) == RaisedInSend)
        && (o == FailedAtCommit <==> faults(k) == RaisedAtCommit && answer)
  {
  }

  /** The counters are the batch sizes the log accounts for: `sent_count`
      grows on a True return (even when the commit then fails),
      `failed_count` only on an exception, and a False return counts for
      neither. */
  ghost predicate Accounted(p: Pass) {
    && p.sent == SizeWhere(p.log, {Delivered, FailedAtCommit})
    && p.failed == SizeWhere(p.log, {FailedInSend, FailedAtCommit})
  }

  lemma VisitGrows(base: seq<Trend>, p: Pass, tbl: Tables, sub: Subscription, cfg: SmtpConfig,
                   smtp: nat -> Email -> bool, faults: nat -> Fault)
    requires FlagsGrow(base, p.trends)
    ensures var q := Visit(p, tbl, sub, cfg, smtp, faults);
      FlagsGrow(base, q.trends) && |q.log| <= |p.log| + 1
  {
    VisitEffect(p, tbl, sub, cfg, smtp, faults);
    FlagsGrowTransitive(base, p.trends, Visit(p, tbl, sub, cfg, smtp, faults).trends);
  }

  lemma VisitAccounts(p: Pass, tbl: Tables, sub: Subscription, cfg: SmtpConfig,
                      smtp: nat -> Email -> bool, faults: nat -> Fault)
    requires Accounted(p)
    ensures Accounted(Visit(p, tbl, sub, cfg, smtp, faults))
  {
    VisitEffect(p, tbl, sub, cfg, smtp, faults);
    var q := Visit(p, tbl, sub, cfg, smtp, faults);
    if q.log != p.log {
      var a := q.log[|p.log|];
      assert q.log == p.log + [a];
      SizeWhereAppend(p.log, a, {Delivered, FailedAtCommit});
      SizeWhereAppend(p.log, a, {FailedInSend, FailedAtCommit});
    }
  }

  /** Over a pass, flags only move from false to true, no other field of any
      row changes, and each subscriber adds at most one attempt to the log. */
  lemma {:induction false} RunFlagsGrow(tbl: Tables, subs: seq<Subscription>, n: nat, cfg: SmtpConfig,
                                        smtp: nat -> Email -> bool, faults: nat -> Fault)
    requires n <= |subs|
    ensures var p := Run(tbl, subs, n, cfg, smtp, faults);
      FlagsGrow(tbl.trends, p.trends) && |p.log| <= n
  {
    if n > 0 {
      RunFlagsGrow(tbl, subs, n - 1, cfg, smtp, faults);
      VisitGrows(tbl.trends, Run(tbl, subs, n - 1, cfg, smtp, faults), tbl, subs[n - 1], cfg, smtp, faults);
    }
  }

  /** Over a pass, the counters are the batch sizes the log accounts for. */
  lemma {:induction false} RunAccounts(tbl: Tables, subs: seq<Subscription>, n: nat, cfg: SmtpConfig,
                                       smtp: nat -> Email -> bool, faults: nat -> Fault)
    requires n <= |subs|
    ensures Accounted(Run(tbl, subs, n, cfg, smtp, faults))
  {
    if n > 0 {
      RunAccounts(tbl, subs, n - 1, cfg, smtp, faults);
      VisitAccounts(Run(tbl, subs, n - 1, cfg, smtp, faults), tbl, subs[n - 1], cfg, smtp, faults);
    }
  }

  // ---------------------------------------------------------------------
  // At most one delivery per trend
  // ---------------------------------------------------------------------

  /** Every row with id `x` is marked notified. */
  ghost predicate NotifiedId(ts: seq<Trend>, x: nat) {
    forall i :: 0 <= i < |ts| && ts[i].id == x ==> ts[i].notified
  }

  /** The ids of the trends in the delivered batches of a log. */
  function DeliveredIds(log: seq<Attempt>): set<nat> {
    if |log| == 0 then {}
    else DeliveredIds(log[..|log| - 1]) + (if log[|log| - 1].outcome == Delivered then IdSet(log[|log| - 1].batch) else {})
  }

  lemma DeliveredIdsAppend(log: seq<Attempt>, a: Attempt)
    ensures DeliveredIds(log + [a]) == DeliveredIds(log) + (if a.outcome == Delivered then IdSet(a.batch) else {})
  {
    assert (log + [a])[..|log|] == log;
  }

  lemma FlagMarks(ts: seq<Trend>, ids: set<nat>, x: nat)
    requires x in ids
    ensures NotifiedId(Flag(ts, ids), x)
  {
  }

  lemma NotifiedIdGrows(a: seq<Trend>, b: seq<Trend>, x: nat)
    requires FlagsGrow(a, b) && NotifiedId(a, x)
    ensures NotifiedId(b, x)
  {
    forall i | 0 <= i < |b| && b[i].id == x
      ensures b[i].notified
    {
      assert b[i] == a[i] || b[i] == a[i].(notified := true);
    }
  }

  /** Every trend of a delivered batch is notified. */
  ghost predicate DeliveredNotified(p: Pass) {
    forall x :: x in DeliveredIds(p.log) ==> NotifiedId(p.trends, x)
  }

  /** A trend notified now but not in `base` was in a delivered batch. */
  ghost predicate OnlyDeliveredNotified(base: seq<Trend>, p: Pass) {
    && |p.trends| == |base|
    && forall k :: 0 <= k < |p.trends| && p.trends[k].notified && !base[k].notified ==>
         p.trends[k].id in DeliveredIds(p.log)
  }

  /** No delivered batch holds a trend an earlier attempt delivered. */
  ghost predicate DeliveriesDisjoint(log: seq<Attempt>) {
    forall j :: 0 <= j < |log| && log[j].outcome == Delivered ==> IdSet(log[j].batch) !! DeliveredIds(log[..j])
  }

  lemma VisitNotifies(p: Pass, tbl: Tables, sub: Subscription, cfg: SmtpConfig,
                      smtp: nat -> Email -> bool, faults: nat -> Fault)
    requires DeliveredNotified(p)
    ensures DeliveredNotified(Visit(p, tbl, sub, cfg, smtp, faults))
  {
    VisitEffect(p, tbl, sub, cfg, smtp, faults);
    var q := Visit(p, tbl, sub, cfg, smtp, faults);
    if q.log != p.log {
      var a := q.log[|p.log|];
      assert q.log == p.log + [a];
      DeliveredIdsAppend(p.log, a);
      forall x | x in DeliveredIds(q.log)
        ensures NotifiedId(q.trends, x)
      {
        if x in DeliveredIds(p.log) {
          NotifiedIdGrows(p.trends, q.trends, x);
        } else {
          FlagMarks(p.trends, IdSet(a.batch), x);
        }
      }
    }
  }

  lemma VisitOnlyDeliveredNotified(base: seq<Trend>, p: Pass, tbl: Tables, sub: Subscription, cfg: SmtpConfig,
                                   smtp: nat -> Email -> bool, faults: nat -> Fault)
    requires OnlyDeliveredNotified(base, p)
    ensures OnlyDeliveredNotified(base, Visit(p, tbl, sub, cfg, smtp, faults))
  {
    VisitEffect(p, tbl, sub, cfg, smtp, faults);
    var q := Visit(p, tbl, sub, cfg, smtp, faults);
    if q.log != p.log {
      var a := q.log[|p.log|];
      assert q.log == p.log + [a];
      DeliveredIdsAppend(p.log, a);
      forall k | 0 <= k < |q.trends| && q.trends[k].notified && !base[k].notified
        ensures q.trends[k].id in DeliveredIds(q.log)
      {
        if !p.trends[k].notified {
          assert a.outcome == Delivered && q.trends[k].id in IdSet(a.batch);
        }
      }
    }
  }

  /** A batch holds only unnotified trends, so none already delivered. */
  lemma BatchAvoidsDelivered(p: Pass, trendTags: set<(nat, nat)>, tagIds: set<nat>)
    requires DeliveredNotified(p)
    ensures IdSet(Batch(p.trends, trendTags, tagIds)) !! DeliveredIds(p.log)
  {
    forall x | x in IdSet(Batch(p.trends, trendTags, tagIds))
      ensures x !in DeliveredIds(p.log)
    {
      var t :| t in Batch(p.trends, trendTags, tagIds) && t.id == x;
      var i :| 0 <= i < |p.trends| && p.trends[i] == t;
      assert !p.trends[i].notified;
    }
  }

  lemma VisitKeepsDisjoint(p: Pass, tbl: Tables, sub: Subscription, cfg: SmtpConfig,
                           smtp: nat -> Email -> bool, faults: nat -> Fault)
    requires DeliveredNotified(p) && DeliveriesDisjoint(p.log)
    ensures DeliveriesDisjoint(Visit(p, tbl, sub, cfg, smtp, faults).log)
  {
    VisitEffect(p, tbl, sub, cfg, smtp, faults);
    var q := Visit(p, tbl, sub, cfg, smtp, faults);
    if q.log != p.log {
      var a := q.log[|p.log|];
      assert q.log == p.log + [a];
      forall j | 0 <= j < |q.log| && q.log[j].outcome == Delivered
        ensures IdSet(q.log[j].batch) !! DeliveredIds(q.log[..j])
      {
        if j < |p.log| {
          assert q.log[..j] == p.log[..j];
        } else {
          assert q.log[..j] == p.log;
          BatchAvoidsDelivered(p, tbl.trendTags, TagIdsOf(tbl.subscriptionTags, sub.id));
        }
      }
    }
  }

  /** Over a pass, every trend of a delivered batch is notified at the end. */
  lemma {:induction false} RunNotifies(tbl: Tables, subs: seq<Subscription>, n: nat, cfg: SmtpConfig,
                                       smtp: nat -> Email -> bool, faults: nat -> Fault)
    requires n <= |subs|
    ensures DeliveredNotified(Run(tbl, subs, n, cfg, smtp, faults))
  {
    if n > 0 {
      RunNotifies(tbl, subs, n - 1, cfg, smtp, faults);
      VisitNotifies(Run(tbl, subs, n - 1, cfg, smtp, faults), tbl, subs[n - 1], cfg, smtp, faults);
    }
  }

  /** Over a pass, a trend that ends notified but was not at the start was in
      a delivered batch: a failed or refused attempt never sets the flag. */
  lemma {:induction false} RunOnlyDeliveredNotified(tbl: Tables, subs: seq<Subscription>, n: nat, cfg: SmtpConfig,
                                                    smtp: nat -> Email -> bool, faults: nat -> Fault)
    requires n <= |subs|
    ensures OnlyDeliveredNotified(tbl.trends, Run(tbl, subs, n, cfg, smtp, faults))
  {
    if n > 0 {
      RunOnlyDeliveredNotified(tbl, subs, n - 1, cfg, smtp, faults);
      VisitOnlyDeliveredNotified(tbl.trends, Run(tbl, subs, n - 1, cfg, smtp, faults), tbl, subs[n - 1], cfg, smtp, faults);
    }
  }

  /** Over a pass, no delivered batch holds a trend an earlier attempt
      already delivered. */
  lemma {:induction false} RunDelivers(tbl: Tables, subs: seq<Subscription>, n: nat, cfg: SmtpConfig,
                                       smtp: nat -> Email -> bool, faults: nat -> Fault)
    requires n <= |subs|
    ensures DeliveriesDisjoint(Run(tbl, subs, n, cfg, smtp, faults).log)
  {
    if n > 0 {
      RunDelivers(tbl, subs, n - 1, cfg, smtp, faults);
      RunNotifies(tbl, subs, n - 1, cfg, smtp, faults);
      VisitKeepsDisjoint(Run(tbl, subs, n - 1, cfg, smtp, faults), tbl, subs[n - 1], cfg, smtp, faults);
    }
  }

  lemma {:induction false} DeliveredIdsCover(log: seq<Attempt>, i: nat)
    requires i < |log| && log[i].outcome == Delivered
    ensures IdSet(log[i].batch) <= DeliveredIds(log)
    decreases |log|
  {
    if i < |log| - 1 {
      DeliveredIdsCover(log[..|log| - 1], i);
    }
  }

  /** At-most-once delivery: within one pass, two delivered batches never
      share a trend. */
  lemma AtMostOnce(tbl: Tables, cfg: SmtpConfig, smtp: nat -> Email -> bool, faults: nat -> Fault, i: nat, j: nat)
    requires var log := FanOut(tbl, cfg, smtp, faults).log;
      i < j < |log| && log[i].outcome == Delivered && log[j].outcome == Delivered
    ensures var log := FanOut(tbl, cfg, smtp, faults).log;
      IdSet(log[i].batch) !! IdSet(log[j].batch)
  {
    var log := FanOut(tbl, cfg, smtp, faults).log;
    RunDelivers(tbl, tbl.subscriptions, |tbl.subscriptions|, cfg, smtp, faults);
    assert log[..j][i] == log[i];
    DeliveredIdsCover(log[..j], i);
  }

  // ---------------------------------------------------------------------
  // A second pass after an all-delivered pass is quiet
  // ---------------------------------------------------------------------

  /** A batch is empty exactly when no row is eligible. */
  lemma {:induction false} BatchEmptyIff(ts: seq<Trend>, trendTags: set<(nat, nat)>, tagIds: set<nat>)
    ensures Batch(ts, trendTags, tagIds) == [] <==> forall i :: 0 <= i < |ts| ==> !Eligible(ts[i], trendTags, tagIds)
    decreases |ts|
  {
    if |ts| > 0 {
      BatchEmptyIff(ts[1..], trendTags, tagIds);
      assert forall i :: 1 <= i < |ts| ==> ts[i] == ts[1..][i - 1];
    }
  }

  /** Marking trends notified never adds a trend to a batch. */
  lemma BatchEmptyStays(a: seq<Trend>, b: seq<Trend>, trendTags: set<(nat, nat)>, tagIds: set<nat>)
    requires FlagsGrow(a, b) && Batch(a, trendTags, tagIds) == []
    ensures Batch(b, trendTags, tagIds) == []
  {
    BatchEmptyIff(a, trendTags, tagIds);
    forall i | 0 <= i < |b|
      ensures !Eligible(b[i], trendTags, tagIds)
    {
      assert !Eligible(a[i], trendTags, tagIds);
    }
    BatchEmptyIff(b, trendTags, tagIds);
  }

  /** Marking a batch notified empties it. */
  lemma FlagBatchEmpties(ts: seq<Trend>, trendTags: set<(nat, nat)>, tagIds: set<nat>)
    ensures Batch(Flag(ts, IdSet(Batch(ts, trendTags, tagIds))), trendTags, tagIds) == []
  {
    var b := Batch(ts, trendTags, tagIds);
    var f := Flag(ts, IdSet(b));
    forall i | 0 <= i < |f|
      ensures !Eligible(f[i], trendTags, tagIds)
    {
      if Eligible(ts[i], trendTags, tagIds) {
        assert ts[i] in b;
        assert ts[i].id in IdSet(b);
      }
    }
    BatchEmptyIff(f, trendTags, tagIds);
  }

  /** A visit that made no attempt, or whose attempt was delivered, leaves
      its subscriber nothing to receive. */
  lemma VisitQuiets(p: Pass, tbl: Tables, sub: Subscription, cfg: SmtpConfig,
                    smtp: nat -> Email -> bool, faults: nat -> Fault)
    requires var q := Visit(p, tbl, sub, cfg, smtp, faults);
      q.log == p.log || q.log[|q.log| - 1].outcome == Delivered
    ensures var q := Visit(p, tbl, sub, cfg, smtp, faults);
      Batch(q.trends, tbl.trendTags, TagIdsOf(tbl.subscriptionTags, sub.id)) == []
  {
    var tagIds := TagIdsOf(tbl.subscriptionTags, sub.id);
    VisitEffect(p, tbl, sub, cfg, smtp, faults);
    if tagIds == {} {
      BatchEmptyIff(Visit(p, tbl, sub, cfg, smtp, faults).trends, tbl.trendTags, tagIds);
    } else if Batch(p.trends, tbl.trendTags, tagIds) != [] {
      FlagBatchEmpties(p.trends, tbl.trendTags, tagIds);
    }
  }

  /** Every attempt of the log was delivered. */
  predicate AllDelivered(log: seq<Attempt>) {
    forall j :: 0 <= j < |log| ==> log[j].outcome == Delivered
  }

  /** A visit only appends to the log and only switches flags on. */
  lemma VisitExtends(p: Pass, tbl: Tables, sub: Subscription, cfg: SmtpConfig,
                     smtp: nat -> Email -> bool, faults: nat -> Fault)
    ensures var q := Visit(p, tbl, sub, cfg, smtp, faults);
      && FlagsGrow(p.trends, q.trends)
      && (AllDelivered(q.log) ==> AllDelivered(p.log) && (q.log == p.log || q.log[|q.log| - 1].outcome == Delivered))
  {
    VisitEffect(p, tbl, sub, cfg, smtp, faults);
    var q := Visit(p, tbl, sub, cfg, smtp, faults);
    if q.log != p.log {
      assert forall j :: 0 <= j < |p.log| ==> p.log[j] == q.log[j];
    }
  }

  /** None of the first `n` subscribers has anything to receive from
      `trends`. */
  ghost predicate Quiet(trends: seq<Trend>, tbl: Tables, subs: seq<Subscription>, n: nat) {
    forall m :: 0 <= m < n <= |subs| ==> Batch(trends, tbl.trendTags, TagIdsOf(tbl.subscriptionTags, subs[m].id)) == []
  }

  lemma VisitKeepsQuiet(p: Pass, tbl: Tables, subs: seq<Subscription>, n: nat, cfg: SmtpConfig,
                        smtp: nat -> Email -> bool, faults: nat -> Fault)
    requires 0 < n <= |subs| && Quiet(p.trends, tbl, subs, n - 1)
    requires AllDelivered(Visit(p, tbl, subs[n - 1], cfg, smtp, faults).log)
    ensures Quiet(Visit(p, tbl, subs[n - 1], cfg, smtp, faults).trends, tbl, subs, n)
  {
    var q := Visit(p, tbl, subs[n - 1], cfg, smtp, faults);
    VisitExtends(p, tbl, subs[n - 1], cfg, smtp, faults);
    VisitQuiets(p, tbl, subs[n - 1], cfg, smtp, faults);
    forall m | 0 <= m < n - 1
      ensures Batch(q.trends, tbl.trendTags, TagIdsOf(tbl.subscriptionTags, subs[m].id)) == []
    {
      BatchEmptyStays(p.trends, q.trends, tbl.trendTags, TagIdsOf(tbl.subscriptionTags, subs[m].id));
    }
  }

  /** After a pass whose every attempt was delivered, no subscriber visited
      has anything left to receive. */
  lemma {:induction false} QuietAfter(tbl: Tables, subs: seq<Subscription>, n: nat, cfg: SmtpConfig,
                                      smtp: nat -> Email -> bool, faults: nat -> Fault)
    requires n <= |subs|
    requires AllDelivered(Run(tbl, subs, n, cfg, smtp, faults).log)
    ensures Quiet(Run(tbl, subs, n, cfg, smtp, faults).trends, tbl, subs, n)
  {
    if n > 0 {
      var p := Run(tbl, subs, n - 1, cfg, smtp, faults);
      VisitExtends(p, tbl, subs[n - 1], cfg, smtp, faults);
      QuietAfter(tbl, subs, n - 1, cfg, smtp, faults);
      VisitKeepsQuiet(p, tbl, subs, n, cfg, smtp, faults);
    }
  }

  /** Visiting subscribers none of whom has anything to receive changes
      nothing and calls send no time. */
  lemma {:induction false} SilentRun(tbl: Tables, subs: seq<Subscription>, n: nat, cfg: SmtpConfig,
                                     smtp: nat -> Email -> bool, faults: nat -> Fault)
    requires n <= |subs|
    requires Quiet(tbl.trends, tbl, subs, n)
    ensures Run(tbl, subs, n, cfg, smtp, faults) == Pass(tbl.trends, 0, 0, [])
  {
    if n > 0 {
      SilentRun(tbl, subs, n - 1, cfg, smtp, faults);
    }
  }

  /** Idempotence: when every attempt of a pass was delivered, a second pass
      over the updated trends makes no delivery attempt and changes nothing,
      whatever the server and the faults do then. */
  lemma SecondPassQuiet(tbl: Tables, cfg: SmtpConfig, smtp: nat -> Email -> bool, faults: nat -> Fault,
                        smtp2: nat -> Email -> bool, faults2: nat -> Fault)
    requires AllDelivered(FanOut(tbl, cfg, smtp, faults).log)
    ensures var p := FanOut(tbl, cfg, smtp, faults);
      FanOut(tbl.(trends := p.trends), cfg, smtp2, faults2) == Pass(p.trends, 0, 0, [])
  {
    var p := FanOut(tbl, cfg, smtp, faults);
    QuietAfter(tbl, tbl.subscriptions, |tbl.subscriptions|, cfg, smtp, faults);
    SilentRun(tbl.(trends := p.trends), tbl.subscriptions, |tbl.subscriptions|, cfg, smtp2, faults2);
  }

  /** A batch lists each trend once: in a table with ascending ids its ids
      ascend too (the DISTINCT of the query). */
  lemma {:induction false} BatchDistinct(trends: seq<Trend>, trendTags: set<(nat, nat)>, tagIds: set<nat>)
    requires StrictlyIncreasing(TrendIds(trends))
    ensures StrictlyIncreasing(TrendIds(Batch(trends, trendTags, tagIds)))
    decreases |trends|
  {
    if |trends| > 0 {
      var rest := Batch(trends[1..], trendTags, tagIds);
      assert TrendIds(trends[1..]) == TrendIds(trends)[1..];
      BatchDistinct(trends[1..], trendTags, tagIds);
      forall t | t in rest
        ensures trends[0].id < t.id
      {
        var i :| 0 <= i < |trends[1..]| && trends[1..][i] == t;
        assert TrendIds(trends)[i + 1] == t.id;
        assert TrendIds(trends)[0] == trends[0].id;
      }
      var b := Batch(trends, trendTags, tagIds);
      forall i, j | 0 <= i < j < |b|
        ensures TrendIds(b)[i] < TrendIds(b)[j]
      {
        if Eligible(trends[0], trendTags, tagIds) {
          assert b == [trends[0]] + rest;
          if i == 0 {
            assert b[j] in rest;
          } else {
            assert TrendIds(rest)[i - 1] < TrendIds(rest)[j - 1];
          }
        } else {
          assert b == rest;
          assert TrendIds(rest)[i] < TrendIds(rest)[j];
        }
      }
    }
  }

  // =====================================================================
  // send_for_subscriptions: the loop
  // =====================================================================

  lemma FlagOneMore(ts: seq<Trend>, ids: set<nat>, x: nat)
    ensures Flag(Flag(ts, ids), {x}) == Flag(ts, ids + {x})
  {
  }

  lemma FlagNothing(ts: seq<Trend>)
    ensures Flag(ts, {}) == ts
  {
  }

  /** `t.notified = True` for every trend of a batch, one row at a time. */
  method MarkBatch(db: Store, batch: seq<Trend>)
    requires db.Valid()
    modifies db
    ensures db.Valid()
    ensures db.State() == old(db.State()).(trends := Flag(old(db.trends), IdSet(batch)))
  {
    var before := db.State();
    FlagNothing(before.trends);
    for j := 0 to |batch|
      invariant db.Valid()
      invariant db.State() == before.(trends := Flag(before.trends, IdSet(batch[..j])))
    {
      assert IdSet(batch[..j + 1]) == IdSet(batch[..j]) + {batch[j].id};
      FlagOneMore(before.trends, IdSet(batch[..j]), batch[j].id);
      db.SetNotified(batch[j].id);
    }
    assert batch[..|batch|] == batch;
  }

  /** The body of the loop for one subscription: the query, at most one call
      to send, the flags and the commit, or the rollback. `calls` counts the
      calls to send made so far. */
  method VisitOne(db: Store, ghost tbl: Tables, sub: Subscription, cfg: SmtpConfig,
                  smtp: nat -> Email -> bool, faults: nat -> Fault,
                  sent: nat, failed: nat, calls: nat, ghost log: seq<Attempt>)
    returns (sent': nat, failed': nat, calls': nat, ghost log': seq<Attempt>)
    requires db.Valid() && db.State() == tbl.(trends := db.trends) && calls == |log|
    modifies db
    ensures db.Valid() && db.State() == tbl.(trends := db.trends) && calls' == |log'|
    ensures Visit(Pass(old(db.trends), sent, failed, log), tbl, sub, cfg, smtp, faults)
      == Pass(db.trends, sent', failed', log')
  {
    sent', failed', calls', log' := sent, failed, calls, log;
    var tagIds := TagIdsOf(db.subscriptionTags, sub.id);
    if tagIds == {} {
      return;
    }
    var batch := Batch(db.trends, db.trendTags, tagIds);
    if batch == [] {
      return;
    }
    var committed := db.State();
    var outcome;
    if faults(calls) == RaisedInSend {
      failed' := failed + |batch|;
      outcome := FailedInSend;
    } else if !Send(cfg, sub.email, Some(Payloads(batch)), smtp(calls)) {
      outcome := Refused;
    } else {
      MarkBatch(db, batch);
      sent' := sent + |batch|;
      if faults(calls) == RaisedAtCommit {
        failed' := failed + |batch|;
        db.Apply(committed);
        outcome := FailedAtCommit;
      } else {
        outcome := Delivered;
      }
    }
    log' := log + [Attempt(sub.email, batch, outcome)];
    calls' := calls + 1;
  }

  /** One pass of the sender over `db`, as `send_for_subscriptions` runs it:
      the trends table ends as the specification pass says, the other tables
      are untouched, and the report carries the pass's counters and the
      number of subscriptions loaded. */
  method SendForSubscriptions(db: Store, cfg: SmtpConfig, smtp: nat -> Email -> bool, faults: nat -> Fault)
    returns (report: Report)
    requires db.Valid()
    modifies db
    ensures db.Valid()
    ensures var p := FanOut(old(db.State()), cfg, smtp, faults);
      && db.State() == old(db.State()).(trends := p.trends)
      && report == Report(p.sent, p.failed, |old(db.subscriptions)|)
  {
    var tbl := db.State();
    var subscriptions := db.subscriptions;
    var sentCount: nat, failedCount: nat := 0, 0;
    var calls := 0;
    ghost var log: seq<Attempt> := [];
    for i := 0 to |subscriptions|
      invariant db.Valid()
      invariant db.State() == tbl.(trends := db.trends)
      invariant Run(tbl, subscriptions, i, cfg, smtp, faults) == Pass(db.trends, sentCount, failedCount, log)
      invariant calls == |log|
    {
      ghost var before := Pass(db.trends, sentCount, failedCount, log);
      sentCount, failedCount, calls, log :=
        VisitOne(db, tbl, subscriptions[i], cfg, smtp, faults, sentCount, failedCount, calls, log);
      assert Run(tbl, subscriptions, i + 1, cfg, smtp, faults) == Visit(before, tbl, subscriptions[i], cfg, smtp, faults);
    }
    report := Report(sentCount, failedCount, |subscriptions|);
  }
}
