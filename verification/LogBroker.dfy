/** The server's end of log shipping: it tells retries, restarts and gaps apart by the
    offset of a push alone (append in worker_log_broker.py). */
module LogBroker {
  import opened LogShipping

  const SEPARATOR := "\U{1B}[2m--- worker restarted ---\U{1B}[0m\n"

  /** The offset expected next, and everything appended so far. */
  datatype Broker = Broker(next: nat, text: string)

  function Append(b: Broker, offset: nat, chunk: string): Broker {
    var taken := Broker(offset + Bytes(chunk), b.text + chunk);
    if offset == b.next then taken
    else if offset == 0 then taken.(text := b.text + SEPARATOR + chunk) // a new worker process
    else if offset < b.next then b                                      // a retry
    else taken                                                          // a gap
  }

  datatype Link = Link(worker: Shipper, server: Broker)

  /** Either something happens to the worker, or a post reaches the server and its answer
      is lost on the way back, which the worker takes for a failure. */
  datatype LinkEvent = Local(e: Event) | AnswerLost

  function Reach(l: Link): Broker {
    if l.worker.phase.Posting? then Append(l.server, l.worker.phase.from, l.worker.phase.chunk) else l.server
  }

  function LinkStep(l: Link, e: LinkEvent, maxlen: nat): Link {
    match e
    case Local(Accept) => Link(Step(l.worker, Accept, maxlen), Reach(l))
    case AnswerLost => Link(Step(l.worker, Fail, maxlen), Reach(l))
    case Local(other) => Link(Step(l.worker, other, maxlen), l.server)
  }

  function LinkRun(es: seq<LinkEvent>, maxlen: nat): Link {
    if es == [] then Link(START, Broker(0, ""))
    else LinkStep(LinkRun(es[..|es| - 1], maxlen), es[|es| - 1], maxlen)
  }

  /** What the worker sees of it. */
  function Seen(es: seq<LinkEvent>): seq<Event> {
    seq(|es|, i requires 0 <= i < |es| => if es[i].Local? then es[i].e else Fail)
  }

  lemma {:induction false} WorkerOfLink(es: seq<LinkEvent>, maxlen: nat)
    ensures LinkRun(es, maxlen).worker == Run(Seen(es), maxlen)
  {
    if es != [] {
      WorkerOfLink(es[..|es| - 1], maxlen);
      assert Seen(es)[..|es| - 1] == Seen(es[..|es| - 1]);
    }
  }

  ghost predicate AllAnswered(es: seq<LinkEvent>) { forall e | e in es :: e.Local? }

  // ---- bytes of a push ----

  lemma {:induction false} BytesConcat(a: string, b: string)
    ensures Bytes(a + b) == Bytes(a) + Bytes(b)
  {
    if b == [] {
      assert a + b == a;
    } else {
      var n := |b| - 1;
      assert (a + b)[..|a + b| - 1] == a + b[..n];
      BytesConcat(a, b[..n]);
    }
  }

  lemma {:induction false} BytesOfLines(lines: seq<string>, d: nat, n: nat)
    requires d <= n <= |lines|
    ensures Bytes(Join(lines[d..n])) == Offset(lines, n) - Offset(lines, d)
    decreases n
  {
    if d < n {
      BytesOfLines(lines, d, n - 1);
      assert lines[d..n] == lines[d..n - 1] + [lines[n - 1]];
      JoinSnoc(lines[d..n - 1], lines[n - 1]);
      BytesConcat(Join(lines[d..n - 1]), lines[n - 1]);
    }
  }

  lemma PushFits(lines: seq<string>, a: nat, n: nat, maxlen: nat)
    requires Lines(lines) && a < n <= |lines|
    ensures Offset(lines, a) + Bytes(Join(Carried(lines, a, n, maxlen))) <= Offset(lines, n)
  {
    var d := Max(a, n - maxlen);
    BytesOfLines(lines, d, n);
    if a < d {
      OffsetGrows(lines, a, d);
    }
  }

  /** If no answer gets lost, the server has exactly the accepted pushes, one after the
      other: it never drops one as a retry, and never takes one for a restart. */
  lemma {:induction false} ServerHasWhatWasAccepted(es: seq<LinkEvent>, maxlen: nat)
    requires AllAnswered(es)
    ensures var l := LinkRun(es, maxlen);
      l.server.text == Join(l.worker.accepted) && l.server.next <= l.worker.acked
  {
    if es != [] {
      var front := es[..|es| - 1];
      ServerHasWhatWasAccepted(front, maxlen);
      WorkerOfLink(front, maxlen);
      RunIsGood(Seen(front), maxlen);
      assert es[|es| - 1] in es;
      AcceptReachesServer(LinkRun(front, maxlen), es[|es| - 1], Cuts(Seen(front), maxlen),
                          LoggedAtDrain(Seen(front), maxlen), maxlen);
    }
  }

  lemma AcceptReachesServer(l: Link, e: LinkEvent, cuts: seq<nat>, n: nat, maxlen: nat)
    requires Good(l.worker, cuts, n, maxlen) && e.Local?
    requires l.server.text == Join(l.worker.accepted) && l.server.next <= l.worker.acked
    ensures var k := LinkStep(l, e, maxlen); k.server.text == Join(k.worker.accepted) && k.server.next <= k.worker.acked
  {
    var s := l.worker;
    if e.e.Accept? && s.phase.Posting? {
      PushFits(s.lines, cuts[|cuts| - 1], n, maxlen);
      JoinSnoc(s.accepted, s.phase.chunk);
    }
    hide Bytes, Join, Offset, Carried, Delivered, TextSince, Ring;
  }

  // ---- a lost answer ----

  lemma LinkSnoc(es: seq<LinkEvent>, e: LinkEvent, maxlen: nat)
    ensures LinkRun(es + [e], maxlen) == LinkStep(LinkRun(es, maxlen), e, maxlen)
  {
    assert (es + [e])[..|es|] == es;
  }

  /** The retry of a push that the server has taken already: dropped as a whole, or taken
      for a new process's first one. */
  lemma RetryAfterAll(b: Broker, from: nat, first: string, again: string)
    requires first != "" && b.next <= from
    ensures var once := Append(b, from, first);
      && once.text == b.text + first
      && Append(once, from, again)
        == if from > 0 then once else Broker(Bytes(again), b.text + first + SEPARATOR + again)
  {
    assert Bytes(first) >= |first|;
  }

  function Emitting(records: seq<string>): seq<LinkEvent> {
    seq(|records|, i requires 0 <= i < |records| => Local(Emit(records[i])))
  }

  function Logged(s: Shipper, records: seq<string>): Shipper { s.(lines := s.lines + Terminate(records)) }

  lemma LoggedSnoc(s: Shipper, records: seq<string>, record: string, maxlen: nat)
    ensures Logged(s, records + [record]) == Step(Logged(s, records), Emit(record), maxlen)
  {
    assert Terminate(records + [record]) == Terminate(records) + [Terminated(record)];
    assert s.lines + Terminate(records) + [Terminated(record)] == s.lines + (Terminate(records) + [Terminated(record)]);
  }

  lemma {:induction false} LinkEmits(es: seq<LinkEvent>, records: seq<string>, maxlen: nat)
    ensures var l := LinkRun(es, maxlen);
      LinkRun(es + Emitting(records), maxlen) == Link(Logged(l.worker, records), l.server)
  {
    var l := LinkRun(es, maxlen);
    if records == [] {
      assert es + Emitting(records) == es && l.worker.lines + Terminate(records) == l.worker.lines;
    } else {
      var n := |records| - 1;
      LinkEmits(es, records[..n], maxlen);
      assert es + Emitting(records) == es + Emitting(records[..n]) + [Local(Emit(records[n]))];
      LinkSnoc(es + Emitting(records[..n]), Local(Emit(records[n])), maxlen);
      assert records[..n] + [records[n]] == records;
      LoggedSnoc(l.worker, records[..n], records[n], maxlen);
    }
  }

  lemma {:induction false} LoggedIsGood(s: Shipper, cuts: seq<nat>, n: nat, records: seq<string>, maxlen: nat)
    requires Good(s, cuts, n, maxlen)
    ensures Good(Logged(s, records), cuts, n, maxlen)
  {
    hide Good;
    if records == [] {
      assert s.lines + Terminate(records) == s.lines;
    } else {
      var k := |records| - 1;
      LoggedIsGood(s, cuts, n, records[..k], maxlen);
      assert records[..k] + [records[k]] == records;
      LoggedSnoc(s, records[..k], records[k], maxlen);
      EmitKeeps(Logged(s, records[..k]), cuts, n, maxlen, records[k]);
    }
  }

  lemma DrainsTheRest(s: Shipper, cuts: seq<nat>, n: nat, maxlen: nat)
    requires Good(s, cuts, n, maxlen) && s.phase.Idle? && maxlen > 0 && cuts[|cuts| - 1] < |s.lines|
    ensures Step(s, Drain, maxlen)
      == s.(phase := Posting(s.acked, Join(Carried(s.lines, cuts[|cuts| - 1], |s.lines|, maxlen)),
                             Offset(s.lines, |s.lines|)))
  {
    var a := cuts[|cuts| - 1];
    DrainIsCarried(s.lines, a, maxlen);
    SomethingToSend(s.lines, a, |s.lines|, maxlen);
    hide Bytes, Join, Offset, Carried, Delivered, TextSince, Ring;
  }

  /** The worker's side: after the failed post it drains everything from the line it last
      got an answer for, as far as that is still in the ring. */
  lemma PostAgain(s: Shipper, cuts: seq<nat>, n: nat, records: seq<string>, maxlen: nat)
    requires Good(s, cuts, n, maxlen) && s.phase.Posting? && maxlen > 0
    ensures var logged := Logged(Step(s, Fail, maxlen), records);
      var a := cuts[|cuts| - 1];
      && a < n <= |s.lines| && s.acked == Offset(logged.lines, a) && s.acked == s.phase.from
      && Step(logged, Drain, maxlen)
        == logged.(phase := Posting(s.acked, Join(Carried(logged.lines, a, |logged.lines|, maxlen)),
                                    Offset(logged.lines, |logged.lines|)))
      && s.phase.chunk == Join(Carried(logged.lines, a, n, maxlen)) != ""
      && Lines(logged.lines)
  {
    hide Bytes, Join, Offset, TextSince, Ring, Terminate;
    var a := cuts[|cuts| - 1];
    var logged := Logged(Step(s, Fail, maxlen), records);
    FailKeeps(s, cuts, n, maxlen);
    LoggedIsGood(Step(s, Fail, maxlen), cuts, n, records, maxlen);
    assert logged.phase.Idle? && |logged.lines| >= |s.lines| && logged.acked == s.acked;
    DrainsTheRest(logged, cuts, n, maxlen);
    SomethingToSend(s.lines, a, n, maxlen);
    assert Carried(logged.lines, a, n, maxlen) == Carried(s.lines, a, n, maxlen);
  }

  lemma SomethingToSend(lines: seq<string>, a: nat, n: nat, maxlen: nat)
    requires Lines(lines) && a < n <= |lines| && maxlen > 0
    ensures Join(Carried(lines, a, n, maxlen)) != "" && Bytes(Join(Carried(lines, a, n, maxlen))) > 0
  {
    var part := Carried(lines, a, n, maxlen);
    forall l | l in part ensures l in lines {}
    JoinNotEmpty(part);
  }

  /** The first answer to get lost in a run, any lines logged after it, and the retry. */
  function LostAndRetried(es: seq<LinkEvent>, records: seq<string>): seq<LinkEvent> {
    es + [AnswerLost] + Emitting(records) + [Local(Drain)] + [Local(Accept)]
  }

  /** The first line for which the worker has had no answer. */
  function FirstUnanswered(es: seq<LinkEvent>, maxlen: nat): nat {
    var cuts := Cuts(Seen(es), maxlen);
    cuts[|cuts| - 1]
  }

  lemma LostSteps(es: seq<LinkEvent>, records: seq<string>, maxlen: nat)
    ensures var l := LinkRun(es, maxlen);
      var logged := Logged(Step(l.worker, Fail, maxlen), records);
      LinkRun(LostAndRetried(es, records), maxlen)
        == LinkStep(LinkStep(Link(logged, Reach(l)), Local(Drain), maxlen), Local(Accept), maxlen)
  {
    var e1 := es + [AnswerLost];
    var e2 := e1 + Emitting(records);
    LinkSnoc(es, AnswerLost, maxlen);
    LinkEmits(e1, records, maxlen);
    LinkSnoc(e2, Local(Drain), maxlen);
    LinkSnoc(e2 + [Local(Drain)], Local(Accept), maxlen);
    hide LinkRun, Append, Step, Emitting, Logged;
  }

  lemma Retried(server: Broker, logged: Shipper, again: string, upTo: nat, maxlen: nat)
    requires Step(logged, Drain, maxlen) == logged.(phase := Posting(logged.acked, again, upTo))
    ensures LinkStep(LinkStep(Link(logged, server), Local(Drain), maxlen), Local(Accept), maxlen)
      == Link(logged.(acked := upTo, accepted := logged.accepted + [again], phase := Idle),
              Append(server, logged.acked, again))
  {
    hide Append, TextSince, Ring, Offset;
  }

  /** The retry carries all lines from the first unanswered one on that are still in the
      ring, and the worker counts it as arrived. Past the beginning of the log the server
      drops it as a whole; at the beginning it takes it for a restart and keeps both. */
  lemma LostAnswer(es: seq<LinkEvent>, records: seq<string>, maxlen: nat)
    requires AllAnswered(es) && LinkRun(es, maxlen).worker.phase.Posting? && maxlen > 0
    ensures var l, end := LinkRun(es, maxlen), LinkRun(LostAndRetried(es, records), maxlen);
      var lines, a, n := end.worker.lines, FirstUnanswered(es, maxlen), LoggedAtDrain(Seen(es), maxlen);
      && lines == l.worker.lines + Terminate(records) && Lines(lines)
      && a < n <= |lines| && l.worker.acked == Offset(lines, a)
      && l.worker.phase.chunk == Join(Carried(lines, a, n, maxlen))
      && var again := Join(Carried(lines, a, |lines|, maxlen));
      && end.worker.accepted == l.worker.accepted + [again]
      && end.worker.acked == Offset(lines, |lines|)
      && end.server.text
        == l.server.text + l.worker.phase.chunk + if l.worker.acked > 0 then "" else SEPARATOR + again
  {
    hide Bytes, Join, Offset, Carried, Delivered, TextSince, Ring, Append, Terminate;
    hide LinkRun, Run, Cuts, LoggedAtDrain, Seen, Good, AllAnswered, Lines, LinkStep, LostAndRetried;
    var l := LinkRun(es, maxlen);
    var cuts, n := Cuts(Seen(es), maxlen), LoggedAtDrain(Seen(es), maxlen);
    ServerHasWhatWasAccepted(es, maxlen);
    WorkerOfLink(es, maxlen);
    RunIsGood(Seen(es), maxlen);
    LostSteps(es, records, maxlen);
    PostAgain(l.worker, cuts, n, records, maxlen);
    var lines := l.worker.lines + Terminate(records);
    var again := Join(Carried(lines, cuts[|cuts| - 1], |lines|, maxlen));
    RetryAfterAll(l.server, l.worker.acked, l.worker.phase.chunk, again);
    var logged := Logged(Step(l.worker, Fail, maxlen), records);
    assert logged == Shipper(lines, l.worker.acked, Idle, l.worker.accepted);
    hide Step, Logged;
    Retried(Reach(l), logged, again, Offset(lines, |lines|), maxlen);
  }

  /** Two texts from the same line on are the same only if they end at the same line. */
  lemma SameTextIff(lines: seq<string>, a: nat, n: nat, maxlen: nat)
    requires Lines(lines) && a <= n <= |lines| && |lines| - a <= maxlen
    ensures Join(Carried(lines, a, n, maxlen)) == Join(Carried(lines, a, |lines|, maxlen)) <==> n == |lines|
  {
    var first, more := lines[a..n], lines[n..];
    assert Carried(lines, a, n, maxlen) == first && Carried(lines, a, |lines|, maxlen) == first + more;
    JoinConcat(first, more);
    if more != [] {
      forall l | l in more ensures l in lines {}
      JoinNotEmpty(more);
    }
  }

  /** After a lost answer and its retry the server has exactly what the worker counts as
      arrived if and only if the push was not the first of the log and its retry carried
      the same text. While the ring still has every line from the first unanswered one on,
      that is: if and only if something had been answered before, and nothing was logged
      between the two drains. */
  lemma LostAnswerIsHarmlessIff(es: seq<LinkEvent>, records: seq<string>, maxlen: nat)
    requires AllAnswered(es) && LinkRun(es, maxlen).worker.phase.Posting? && maxlen > 0
    ensures var l, end := LinkRun(es, maxlen), LinkRun(LostAndRetried(es, records), maxlen);
      var lines, a, n := end.worker.lines, FirstUnanswered(es, maxlen), LoggedAtDrain(Seen(es), maxlen);
      && a < n <= |lines|
      && (end.server.text == Join(end.worker.accepted) <==>
            l.worker.acked > 0
            && Join(Carried(lines, a, n, maxlen)) == Join(Carried(lines, a, |lines|, maxlen)))
      && (|lines| - a <= maxlen ==>
            (end.server.text == Join(end.worker.accepted) <==> l.worker.acked > 0 && n == |lines|))
      && (l.worker.acked > 0 && n == |lines| ==> end.server.text == Join(end.worker.accepted))
  {
    var l, end := LinkRun(es, maxlen), LinkRun(LostAndRetried(es, records), maxlen);
    var lines, a, n := end.worker.lines, FirstUnanswered(es, maxlen), LoggedAtDrain(Seen(es), maxlen);
    ServerHasWhatWasAccepted(es, maxlen);
    LostAnswer(es, records, maxlen);
    var first, again := Join(Carried(lines, a, n, maxlen)), Join(Carried(lines, a, |lines|, maxlen));
    if |lines| - a <= maxlen {
      SameTextIff(lines, a, n, maxlen);
    }
    JoinSnoc(l.worker.accepted, again);
    hide LinkRun, LostAndRetried, FirstUnanswered, LoggedAtDrain, Join, Carried, Offset, AllAnswered;
    SameAfterAll(l.server.text, first, again);
  }

  lemma SameAfterAll(text: string, first: string, again: string)
    ensures text + first == text + again <==> first == again
    ensures text + first + (SEPARATOR + again) != text + again
  {
    if text + first == text + again {
      assert first == (text + first)[|text|..] == (text + again)[|text|..] == again;
    }
    assert |text + first + (SEPARATOR + again)| > |text + again|;
  }
}
