/** The worker's log ring and the pusher that ships it (log_capture.py, _log_pusher_loop in
    client.py). One pusher; log lines may arrive at any point of a push. */
module LogShipping {
  import opened Common

  /** A line in the ring, with the offset of its first byte among all bytes ever logged. */
  datatype Entry = Entry(text: string, offset: nat)

  // ---- lines, bytes and offsets ----

  /** The length of a character in UTF-8. */
  function CharBytes(c: char): nat {
    if c as int < 0x80 then 1 else if c as int < 0x800 then 2 else if c as int < 0x1_0000 then 3 else 4
  }

  function Bytes(text: string): (n: nat)
    ensures n >= |text|
  {
    if text == "" then 0 else Bytes(text[..|text| - 1]) + CharBytes(text[|text| - 1])
  }

  /** The character in UTF-8 (section 3 of RFC 3629). */
  function Utf8(c: char): seq<nat> {
    var n := c as int;
    if n < 0x80 then [n]
    else if n < 0x800 then [0xC0 + n / 0x40, 0x80 + n % 0x40]
    else if n < 0x1_0000 then [0xE0 + n / 0x1000, 0x80 + n / 0x40 % 0x40, 0x80 + n % 0x40]
    else [0xF0 + n / 0x4_0000, 0x80 + n / 0x1000 % 0x40, 0x80 + n / 0x40 % 0x40, 0x80 + n % 0x40]
  }

  function Encoded(text: string): seq<nat> {
    if text == "" then [] else Encoded(text[..|text| - 1]) + Utf8(text[|text| - 1])
  }

  lemma {:induction false} BytesAreUtf8(text: string)
    ensures Bytes(text) == |Encoded(text)|
  {
    if text != "" {
      BytesAreUtf8(text[..|text| - 1]);
    }
  }

  /** A record always ends in a newline, so it is never empty. */
  function Terminated(text: string): (line: string)
    ensures line != "" && line[|line| - 1] == '\n'
  {
    if text != "" && text[|text| - 1] == '\n' then text else text + "\n"
  }

  /** The offset at which line i begins, or would begin. */
  function Offset(lines: seq<string>, i: nat): nat
    requires i <= |lines|
  {
    if i == 0 then 0 else Offset(lines, i - 1) + Bytes(lines[i - 1])
  }

  function Join(lines: seq<string>): string {
    if lines == [] then "" else Join(lines[..|lines| - 1]) + lines[|lines| - 1]
  }

  ghost predicate Lines(lines: seq<string>) { forall l | l in lines :: l != "" }

  function Max(a: int, b: int): int { if a < b then b else a }

  /** How many lines have left a ring of this size. */
  function Dropped(lines: seq<string>, maxlen: nat): nat { Max(0, |lines| - maxlen) }

  /** Lines d to n, each with its true offset. */
  function Window(lines: seq<string>, d: nat, n: nat): seq<Entry>
    requires d <= n <= |lines|
  {
    seq(n - d, i requires 0 <= i < n - d => Entry(lines[d + i], Offset(lines, d + i)))
  }

  /** What the ring holds after these lines: the last maxlen. */
  function Ring(lines: seq<string>, maxlen: nat): seq<Entry> {
    Window(lines, Dropped(lines, maxlen), |lines|)
  }

  /** The text of the entries that begin at or after an offset. */
  function TextSince(ring: seq<Entry>, since: nat): string {
    if ring == [] then ""
    else
      var e := ring[|ring| - 1];
      TextSince(ring[..|ring| - 1], since) + if e.offset >= since then e.text else ""
  }

  // ---- the pusher as a machine ----

  datatype Phase = Idle | Posting(from: nat, chunk: string, upTo: nat)

  /** accepted lists the chunks whose post was answered with success. */
  datatype Shipper = Shipper(lines: seq<string>, acked: nat, phase: Phase, accepted: seq<string>)

  datatype Event = Emit(text: string) | Drain | Accept | Fail

  const START := Shipper([], 0, Idle, [])

  /** An empty chunk is not posted and moves nothing; a failed post is retried from the
      same offset. */
  function Step(s: Shipper, e: Event, maxlen: nat): Shipper {
    match e
    case Emit(text) => s.(lines := s.lines + [Terminated(text)])
    case Drain =>
      var chunk := TextSince(Ring(s.lines, maxlen), s.acked);
      if s.phase.Idle? && chunk != "" then s.(phase := Posting(s.acked, chunk, Offset(s.lines, |s.lines|))) else s
    case Accept =>
      if s.phase.Posting? then s.(acked := s.phase.upTo, accepted := s.accepted + [s.phase.chunk], phase := Idle) else s
    case Fail => s.(phase := Idle)
  }

  function RunFrom(s: Shipper, es: seq<Event>, maxlen: nat): Shipper {
    if es == [] then s else Step(RunFrom(s, es[..|es| - 1], maxlen), es[|es| - 1], maxlen)
  }

  function Run(es: seq<Event>, maxlen: nat): Shipper { RunFrom(START, es, maxlen) }

  // ---- offsets grow, slices keep ----

  lemma {:induction false} OffsetGrows(lines: seq<string>, i: nat, k: nat)
    requires Lines(lines) && i < k <= |lines|
    ensures Offset(lines, i) < Offset(lines, k)
  {
    assert lines[k - 1] in lines;
    if i < k - 1 {
      OffsetGrows(lines, i, k - 1);
    }
  }

  lemma {:induction false} OffsetKeeps(lines: seq<string>, line: string, i: nat)
    requires i <= |lines|
    ensures Offset(lines + [line], i) == Offset(lines, i)
  {
    if i > 0 {
      OffsetKeeps(lines, line, i - 1);
    }
  }

  lemma JoinSnoc(lines: seq<string>, line: string)
    ensures Join(lines + [line]) == Join(lines) + line
  {
    assert (lines + [line])[..|lines|] == lines;
  }

  lemma {:induction false} JoinConcat(a: seq<string>, b: seq<string>)
    ensures Join(a + b) == Join(a) + Join(b)
  {
    if b == [] {
      assert a + b == a;
    } else {
      var n := |b| - 1;
      assert a + b == (a + b[..n]) + [b[n]];
      JoinConcat(a, b[..n]);
      JoinSnoc(a + b[..n], b[n]);
    }
  }

  lemma TextSnoc(ring: seq<Entry>, e: Entry, since: nat)
    ensures TextSince(ring + [e], since) == TextSince(ring, since) + if e.offset >= since then e.text else ""
  {
    assert (ring + [e])[..|ring|] == ring;
  }

  lemma WindowSnoc(lines: seq<string>, d: nat, n: nat)
    requires d <= n < |lines|
    ensures Window(lines, d, n + 1) == Window(lines, d, n) + [Entry(lines[n], Offset(lines, n))]
  {}

  /** The lines from a to n, without those before d; none if that is empty. */
  function Part(lines: seq<string>, d: nat, a: nat, n: nat): seq<string>
    requires n <= |lines|
  {
    if Max(a, d) <= n then lines[Max(a, d)..n] else []
  }

  lemma PartSnoc(lines: seq<string>, d: nat, a: nat, n: nat)
    requires d <= n < |lines|
    ensures Part(lines, d, a, n + 1) == if a <= n then Part(lines, d, a, n) + [lines[n]] else []
  {}

  /** Draining at the beginning of line a gives the lines from a on that are still there. */
  lemma {:induction false} DrainFrom(lines: seq<string>, d: nat, n: nat, a: nat)
    requires Lines(lines) && d <= n <= |lines| && a <= |lines|
    ensures TextSince(Window(lines, d, n), Offset(lines, a)) == Join(Part(lines, d, a, n))
    decreases n
  {
    hide Join, TextSince, Offset, Window, Part;
    if d == n {
      DrainNothing(lines, n, a);
    } else {
      DrainFrom(lines, d, n - 1, a);
      WindowSnoc(lines, d, n - 1);
      TextSnoc(Window(lines, d, n - 1), Entry(lines[n - 1], Offset(lines, n - 1)), Offset(lines, a));
      PartSnoc(lines, d, a, n - 1);
      if n - 1 < a {
        OffsetGrows(lines, n - 1, a);
        NoneYet(lines, d, n - 1, a);
      } else {
        if a < n - 1 {
          OffsetGrows(lines, a, n - 1);
        }
        JoinSnoc(Part(lines, d, a, n - 1), lines[n - 1]);
      }
    }
  }

  lemma DrainNothing(lines: seq<string>, n: nat, a: nat)
    requires n <= |lines| && a <= |lines|
    ensures TextSince(Window(lines, n, n), Offset(lines, a)) == "" == Join(Part(lines, n, a, n))
  {}

  lemma NoneYet(lines: seq<string>, d: nat, n: nat, a: nat)
    requires d <= n < a <= |lines|
    ensures Join(Part(lines, d, a, n)) == "" && Join([]) == ""
  {}

  // ---- what arrives ----

  /** The lines of a push that drained after n lines, with everything before line a
      acknowledged: all of them but those that had left the ring by then. */
  function Carried(lines: seq<string>, a: nat, n: nat, maxlen: nat): seq<string>
    requires a <= n <= |lines|
  {
    lines[Max(a, n - maxlen)..n]
  }

  /** How many records were logged. */
  function Emitted(es: seq<Event>): nat {
    if es == [] then 0 else Emitted(es[..|es| - 1]) + if es[|es| - 1].Emit? then 1 else 0
  }

  predicate BeginsPost(s: Shipper, maxlen: nat) {
    s.phase.Idle? && TextSince(Ring(s.lines, maxlen), s.acked) != ""
  }

  /** How many records had been logged at the drain that began the post under way, or the
      last one. */
  function LoggedAtDrain(es: seq<Event>, maxlen: nat): nat {
    if es == [] then 0
    else
      var front := es[..|es| - 1];
      if es[|es| - 1].Drain? && BeginsPost(Run(front, maxlen), maxlen) then Emitted(front)
      else LoggedAtDrain(front, maxlen)
  }

  /** The numbers of records logged at the drains of the accepted posts, after a first 0. */
  function Cuts(es: seq<Event>, maxlen: nat): (cuts: seq<nat>)
    ensures cuts != []
  {
    if es == [] then [0]
    else
      var front := es[..|es| - 1];
      if es[|es| - 1].Accept? && Run(front, maxlen).phase.Posting? then
        Cuts(front, maxlen) + [LoggedAtDrain(front, maxlen)]
      else Cuts(front, maxlen)
  }

  lemma {:induction false} EmittedIsLogged(es: seq<Event>, maxlen: nat)
    ensures |Run(es, maxlen).lines| == Emitted(es)
  {
    if es != [] {
      EmittedIsLogged(es[..|es| - 1], maxlen);
    }
  }

  /** cuts are line numbers: the k-th accepted push carried lines from cuts[k] to cuts[k + 1]. */
  ghost predicate Delivered(s: Shipper, cuts: seq<nat>, maxlen: nat) {
    && |cuts| == |s.accepted| + 1 && cuts[0] == 0
    && (forall k | 0 <= k < |cuts| :: cuts[k] <= |s.lines|)
    && (forall k | 0 <= k < |s.accepted| :: cuts[k] < cuts[k + 1])
    && (forall k | 0 <= k < |s.accepted| :: s.accepted[k] == Join(Carried(s.lines, cuts[k], cuts[k + 1], maxlen)))
  }

  /** The push under way drained after n lines, from the acknowledged line a. */
  ghost predicate UnderWay(s: Shipper, a: nat, n: nat, maxlen: nat) {
    s.phase.Posting? ==>
      && a < n <= |s.lines| && s.phase.from == s.acked
      && s.phase.upTo == Offset(s.lines, n) && s.phase.chunk == Join(Carried(s.lines, a, n, maxlen))
  }

  ghost predicate Good(s: Shipper, cuts: seq<nat>, n: nat, maxlen: nat) {
    && Lines(s.lines)
    && Delivered(s, cuts, maxlen)
    && s.acked == Offset(s.lines, cuts[|cuts| - 1])
    && UnderWay(s, cuts[|cuts| - 1], n, maxlen)
  }

  lemma EmitKeeps(s: Shipper, cuts: seq<nat>, n: nat, maxlen: nat, text: string)
    requires Good(s, cuts, n, maxlen)
    ensures Good(Step(s, Emit(text), maxlen), cuts, n, maxlen)
  {
    hide Join, Offset;
    var line := Terminated(text);
    OffsetKeeps(s.lines, line, cuts[|cuts| - 1]);
    if s.phase.Posting? {
      OffsetKeeps(s.lines, line, n);
      CarriedKeeps(s.lines, line, cuts[|cuts| - 1], n, maxlen);
    }
    forall k | 0 <= k < |s.accepted|
      ensures Carried(s.lines + [line], cuts[k], cuts[k + 1], maxlen) == Carried(s.lines, cuts[k], cuts[k + 1], maxlen)
    {
      CarriedKeeps(s.lines, line, cuts[k], cuts[k + 1], maxlen);
    }
  }

  lemma CarriedKeeps(lines: seq<string>, line: string, a: nat, n: nat, maxlen: nat)
    requires a <= n <= |lines|
    ensures Carried(lines + [line], a, n, maxlen) == Carried(lines, a, n, maxlen)
  {}

  lemma DrainKeeps(s: Shipper, cuts: seq<nat>, n: nat, maxlen: nat)
    requires Good(s, cuts, n, maxlen)
    ensures Good(Step(s, Drain, maxlen), cuts, if BeginsPost(s, maxlen) then |s.lines| else n, maxlen)
  {
    hide Join, Offset, TextSince, Ring;
    if BeginsPost(s, maxlen) {
      DrainIsCarried(s.lines, cuts[|cuts| - 1], maxlen);
    }
  }

  lemma DrainIsCarried(lines: seq<string>, a: nat, maxlen: nat)
    requires Lines(lines) && a <= |lines|
    ensures TextSince(Ring(lines, maxlen), Offset(lines, a)) == Join(Carried(lines, a, |lines|, maxlen))
    ensures a == |lines| ==> TextSince(Ring(lines, maxlen), Offset(lines, a)) == ""
  {
    DrainFrom(lines, Dropped(lines, maxlen), |lines|, a);
  }

  lemma AcceptKeeps(s: Shipper, cuts: seq<nat>, n: nat, maxlen: nat)
    requires Good(s, cuts, n, maxlen)
    ensures Good(Step(s, Accept, maxlen), if s.phase.Posting? then cuts + [n] else cuts, n, maxlen)
  {
    hide Join, Offset, Carried;
  }

  lemma {:induction false} RunIsGood(es: seq<Event>, maxlen: nat)
    ensures Good(Run(es, maxlen), Cuts(es, maxlen), LoggedAtDrain(es, maxlen), maxlen)
  {
    if es != [] {
      var front, e := es[..|es| - 1], es[|es| - 1];
      var s, cuts, n := Run(front, maxlen), Cuts(front, maxlen), LoggedAtDrain(front, maxlen);
      RunIsGood(front, maxlen);
      hide Good, Step;
      match e
      case Emit(text) => EmitKeeps(s, cuts, n, maxlen, text);
      case Drain =>
        EmittedIsLogged(front, maxlen);
        DrainKeeps(s, cuts, n, maxlen);
      case Accept => AcceptKeeps(s, cuts, n, maxlen);
      case Fail => FailKeeps(s, cuts, n, maxlen);
    }
  }

  lemma FailKeeps(s: Shipper, cuts: seq<nat>, n: nat, maxlen: nat)
    requires Good(s, cuts, n, maxlen)
    ensures Good(Step(s, Fail, maxlen), cuts, n, maxlen)
  {}

  /** Across any sequence of failed and accepted posts, with lines arriving at any moment:
      the acknowledged offset is the beginning of a line, each accepted push takes up where
      the one before ended, and carries, in order and once, every line logged up to its
      drain except those that had left the ring by then. */
  lemma ShipsInOrder(es: seq<Event>, maxlen: nat)
    ensures var s, cuts := Run(es, maxlen), Cuts(es, maxlen);
      Delivered(s, cuts, maxlen) && s.acked == Offset(s.lines, cuts[|cuts| - 1])
  {
    RunIsGood(es, maxlen);
  }

  /** Between the drains of one accepted post and the next at most maxlen records are logged. */
  predicate KeepsUp(es: seq<Event>, maxlen: nat) {
    var cuts := Cuts(es, maxlen);
    forall m | 0 <= m < |cuts| - 1 :: cuts[m + 1] - cuts[m] <= maxlen
  }

  lemma JoinCut(lines: seq<string>, a: nat, n: nat)
    requires a <= n <= |lines|
    ensures Join(lines[..n]) == Join(lines[..a]) + Join(lines[a..n])
  {
    hide Join;
    assert lines[..n] == lines[..a] + lines[a..n];
    JoinConcat(lines[..a], lines[a..n]);
  }

  /** A push is short of its lines exactly when there are more of them than the ring holds. */
  lemma CarriedOrLost(lines: seq<string>, a: nat, n: nat, maxlen: nat)
    requires a <= n <= |lines| && Lines(lines)
    ensures if n - a <= maxlen then Carried(lines, a, n, maxlen) == lines[a..n]
      else |Join(Carried(lines, a, n, maxlen))| < |Join(lines[a..n])|
  {
    hide Join;
    if n - a > maxlen {
      var lost, kept := lines[a..n - maxlen], lines[n - maxlen..n];
      assert lines[a..n] == lost + kept && |lost| > 0;
      forall l | l in lost ensures l in lines {}
      JoinConcat(lost, kept);
      JoinNotEmpty(lost);
    }
  }

  lemma OnePush(s: Shipper, cuts: seq<nat>, maxlen: nat, k: nat)
    requires Delivered(s, cuts, maxlen) && Lines(s.lines) && k < |s.accepted|
    ensures cuts[k] < cuts[k + 1] <= |s.lines|
    ensures Join(s.accepted[..k + 1]) == Join(s.accepted[..k]) + s.accepted[k]
    ensures var rest := Join(s.lines[cuts[k]..cuts[k + 1]]);
      && Join(s.lines[..cuts[k + 1]]) == Join(s.lines[..cuts[k]]) + rest
      && if cuts[k + 1] - cuts[k] <= maxlen then s.accepted[k] == rest else |s.accepted[k]| < |rest|
  {
    hide Join, Carried;
    assert s.accepted[..k + 1] == s.accepted[..k] + [s.accepted[k]];
    JoinSnoc(s.accepted[..k], s.accepted[k]);
    JoinCut(s.lines, cuts[k], cuts[k + 1]);
    CarriedOrLost(s.lines, cuts[k], cuts[k + 1], maxlen);
  }

  lemma JoinNotEmpty(lines: seq<string>)
    requires lines != [] && forall l | l in lines :: l != ""
    ensures |Join(lines)| > 0
  {
    assert lines[|lines| - 1] in lines;
  }

  lemma {:induction false} LostOrNot(s: Shipper, cuts: seq<nat>, maxlen: nat, k: nat)
    requires Delivered(s, cuts, maxlen) && Lines(s.lines) && k < |cuts|
    ensures |Join(s.accepted[..k])| <= |Join(s.lines[..cuts[k]])|
    ensures if forall m | 0 <= m < k :: cuts[m + 1] - cuts[m] <= maxlen
      then Join(s.accepted[..k]) == Join(s.lines[..cuts[k]])
      else |Join(s.accepted[..k])| < |Join(s.lines[..cuts[k]])|
  {
    hide Join;
    if k == 0 {
      assert s.accepted[..0] == [] && s.lines[..cuts[0]] == [];
    } else {
      LostOrNot(s, cuts, maxlen, k - 1);
      OnePush(s, cuts, maxlen, k - 1);
    }
  }

  /** What was accepted is the log up to the acknowledged line, with nothing missing, if and
      only if between the drains of consecutive accepted posts never more records were
      logged than the ring holds. */
  lemma NothingIsLostIff(es: seq<Event>, maxlen: nat)
    ensures var s, cuts := Run(es, maxlen), Cuts(es, maxlen);
      && |cuts| > 0 && cuts[|cuts| - 1] <= |s.lines|
      && (Join(s.accepted) == Join(s.lines[..cuts[|cuts| - 1]]) <==> KeepsUp(es, maxlen))
  {
    RunIsGood(es, maxlen);
    var s, cuts := Run(es, maxlen), Cuts(es, maxlen);
    hide Join, Run, Cuts;
    LostOrNot(s, cuts, maxlen, |cuts| - 1);
    assert s.accepted[..|cuts| - 1] == s.accepted;
  }

  /** Drains whose post fails do not count: with room for one line and one line between any
      two drains, a line is lost. */
  lemma FailedPostCostsALine()
    ensures var es := [Emit("a")] + [Drain] + [Fail] + [Emit("b")] + [Drain] + [Accept];
      var s := Run(es, 1);
      s.lines == ["a\n", "b\n"] && s.accepted == ["b\n"] && s.acked == 4 && !KeepsUp(es, 1)
  {
    var a, b := "a\n", "b\n";
    var e1 := [Emit("a")];
    var e2, e3 := e1 + [Drain], e1 + [Drain] + [Fail];
    var e4, e5 := e3 + [Emit("b")], e3 + [Emit("b")] + [Drain];
    FirstPostFails();
    hide Step, TextSince, Ring, Offset, Run, Cuts, LoggedAtDrain, Terminated;
    RunSnoc(e3, Emit("b"), 1);
    RunSnoc(e4, Drain, 1);
    RunSnoc(e5, Accept, 1);
    SecondPost();
    EmittedIsLogged(e4, 1);
    assert Cuts(e5, 1) == [0] && LoggedAtDrain(e5, 1) == 2;
    var cuts := Cuts(e5 + [Accept], 1);
    assert cuts == [0, 2] && cuts[0 + 1] - cuts[0] == 2;
  }

  /** After the failed post everything is as before it, apart from the line logged. */
  lemma FirstPostFails()
    ensures Run([Emit("a")] + [Drain] + [Fail], 1) == Shipper(["a\n"], 0, Idle, [])
    ensures Cuts([Emit("a")] + [Drain] + [Fail], 1) == [0]
  {
    RunSnoc([], Emit("a"), 1);
    RunSnoc([Emit("a")], Drain, 1);
    RunSnoc([Emit("a")] + [Drain], Fail, 1);
    assert [] + [Emit("a")] == [Emit("a")] && [] + ["a\n"] == ["a\n"];
    assert Terminated("a") == "a\n";
  }

  lemma SecondPost()
    ensures var s := Step(Shipper(["a\n"], 0, Idle, []), Emit("b"), 1);
      && s == Shipper(["a\n", "b\n"], 0, Idle, []) && BeginsPost(s, 1)
      && Step(s, Drain, 1) == s.(phase := Posting(0, "b\n", 4))
      && Step(Step(s, Drain, 1), Accept, 1) == Shipper(["a\n", "b\n"], 4, Idle, ["b\n"])
  {
    OneLineRing(["a\n"], "b\n", 0);
    TwoOffsets("a\n", "b\n");
    assert ["a\n"] + ["b\n"] == ["a\n", "b\n"];
    assert Terminated("b") == "b\n";
  }

  lemma RunSnoc(es: seq<Event>, e: Event, maxlen: nat)
    ensures Run(es + [e], maxlen) == Step(Run(es, maxlen), e, maxlen)
    ensures LoggedAtDrain(es + [e], maxlen)
      == if e.Drain? && BeginsPost(Run(es, maxlen), maxlen) then Emitted(es) else LoggedAtDrain(es, maxlen)
    ensures Cuts(es + [e], maxlen)
      == if e.Accept? && Run(es, maxlen).phase.Posting? then Cuts(es, maxlen) + [LoggedAtDrain(es, maxlen)]
         else Cuts(es, maxlen)
  {
    assert (es + [e])[..|es|] == es;
  }

  lemma OneLineRing(lines: seq<string>, line: string, since: nat)
    requires line != "" && since <= Offset(lines, |lines|)
    ensures TextSince(Ring(lines + [line], 1), since) == line
  {
    OffsetKeeps(lines, line, |lines|);
    assert Ring(lines + [line], 1) == [] + [Entry(line, Offset(lines, |lines|))];
    TextSnoc([], Entry(line, Offset(lines, |lines|)), since);
  }

  lemma TwoOffsets(a: string, b: string)
    requires a == "a\n" && b == "b\n"
    ensures Offset([a, b], 2) == 4
  {
    assert a[..1] == "a" && b[..1] == "b" && a[..1][..0] == "" && b[..1][..0] == "";
    assert Bytes("") == 0 && Bytes("a") == 1 && Bytes("b") == 1;
    assert Bytes(a) == 2 && Bytes(b) == 2;
    assert Offset([a, b], 1) == 2;
  }

  /** The offset a push declares is where its first line begins if and only if the ring
      lost nothing since the last acknowledgement. */
  lemma DeclaredOffsetIsTrueIff(lines: seq<string>, a: nat, n: nat, maxlen: nat)
    requires Lines(lines) && a < n <= |lines| && maxlen > 0
    ensures Offset(lines, a) == Offset(lines, n - |Carried(lines, a, n, maxlen)|) <==> n - a <= maxlen
  {
    if n - a > maxlen {
      OffsetGrows(lines, a, n - maxlen);
    }
  }

  // ---- as the worker runs it ----

  class LogCapture {
    const maxlen: nat
    var ring: seq<Entry>
    var nextOffset: nat
    ghost var lines: seq<string> // every line ever emitted

    /** The ring is the tail of the log, its offsets contiguous and strictly increasing. */
    ghost predicate Valid()
      reads this
    {
      Lines(lines) && ring == Ring(lines, maxlen) && nextOffset == Offset(lines, |lines|)
    }

    constructor (maxlen: nat)
      ensures Valid() && lines == [] && this.maxlen == maxlen
    {
      this.maxlen := maxlen;
      ring, nextOffset, lines := [], 0, [];
    }

    method Emit(record: string)
      requires Valid()
      modifies this
      ensures Valid() && lines == old(lines) + [Terminated(record)]
      ensures lines == old(lines)
        + [if record != "" && record[|record| - 1] == '\n' then record else record + "\n"]
    {
      var text := record;
      if text == "" || text[|text| - 1] != '\n' {
        text := text + "\n";
      }
      RingStep(lines, text, maxlen);
      var bytes := Bytes(text);
      ring := ring + [Entry(text, nextOffset)];
      if |ring| > maxlen {
        ring := ring[1..];
      }
      nextOffset := nextOffset + bytes;
      lines := lines + [text];
    }

    method EmitAll(records: seq<string>)
      requires Valid()
      modifies this
      ensures Valid() && lines == old(lines) + Terminate(records)
    {
      for i := 0 to |records|
        invariant Valid() && lines == old(lines) + Terminate(records)[..i]
      {
        Emit(records[i]);
      }
    }

    method DrainSince(since: nat) returns (chunk: string, newOffset: nat)
      requires Valid()
      ensures chunk == TextSince(Ring(lines, maxlen), since) && newOffset == Offset(lines, |lines|)
    {
      chunk, newOffset := "", nextOffset;
      for i := 0 to |ring|
        invariant chunk == TextSince(ring[..i], since)
      {
        assert ring[..i + 1] == ring[..i] + [ring[i]];
        TextSnoc(ring[..i], ring[i], since);
        if ring[i].offset >= since {
          chunk := chunk + ring[i].text;
        }
      }
      assert ring[..|ring|] == ring;
    }
  }

  function Terminate(records: seq<string>): seq<string> {
    seq(|records|, i requires 0 <= i < |records| => Terminated(records[i]))
  }

  lemma RingStep(lines: seq<string>, line: string, maxlen: nat)
    requires Lines(lines) && line != ""
    ensures var next := Ring(lines, maxlen) + [Entry(line, Offset(lines, |lines|))];
      Ring(lines + [line], maxlen) == if |next| > maxlen then next[1..] else next
    ensures Offset(lines + [line], |lines| + 1) == Offset(lines, |lines|) + Bytes(line)
  {
    forall i | 0 <= i <= |lines| ensures Offset(lines + [line], i) == Offset(lines, i) {
      OffsetKeeps(lines, line, i);
    }
  }

  /** What happens around one push: lines logged before the drain, lines logged while the
      post is under way, and the answer. */
  datatype Tick = Tick(before: seq<string>, during: seq<string>, ok: bool)

  function Emits(records: seq<string>): seq<Event> {
    seq(|records|, i requires 0 <= i < |records| => Emit(records[i]))
  }

  function TickEvents(t: Tick): seq<Event> {
    Emits(t.before) + [Drain] + Emits(t.during) + [if t.ok then Accept else Fail]
  }

  lemma {:induction false} EmitsRun(s: Shipper, records: seq<string>, maxlen: nat)
    ensures RunFrom(s, Emits(records), maxlen) == s.(lines := s.lines + Terminate(records))
  {
    if records == [] {
      assert s.lines + Terminate(records) == s.lines;
    } else {
      var n := |records| - 1;
      EmitsRun(s, records[..n], maxlen);
      assert Emits(records)[..n] == Emits(records[..n]);
      assert Terminate(records) == Terminate(records[..n]) + [Terminated(records[n])];
      Assoc(s.lines, Terminate(records[..n]), [Terminated(records[n])]);
    }
  }

  lemma {:induction false} RunSplit(s: Shipper, a: seq<Event>, b: seq<Event>, maxlen: nat)
    ensures RunFrom(s, a + b, maxlen) == RunFrom(RunFrom(s, a, maxlen), b, maxlen)
  {
    if b == [] {
      assert a + b == a;
    } else {
      var n := |b| - 1;
      RunSplit(s, a, b[..n], maxlen);
      assert (a + b)[..|a + b| - 1] == a + b[..n];
    }
  }

  lemma RunOne(s: Shipper, e: Event, maxlen: nat)
    ensures RunFrom(s, [e], maxlen) == Step(s, e, maxlen)
  {
    assert [e][..0] == [];
  }

  lemma TickRun(s: Shipper, t: Tick, maxlen: nat)
    ensures RunFrom(s, TickEvents(t), maxlen)
      == var s1 := Step(s.(lines := s.lines + Terminate(t.before)), Drain, maxlen);
         Step(s1.(lines := s1.lines + Terminate(t.during)), if t.ok then Accept else Fail, maxlen)
  {
    hide Step, RunFrom;
    var last := if t.ok then Accept else Fail;
    RunSplit(s, Emits(t.before) + [Drain] + Emits(t.during), [last], maxlen);
    RunSplit(s, Emits(t.before) + [Drain], Emits(t.during), maxlen);
    RunSplit(s, Emits(t.before), [Drain], maxlen);
    EmitsRun(s, t.before, maxlen);
    RunOne(s.(lines := s.lines + Terminate(t.before)), Drain, maxlen);
    var s1 := Step(s.(lines := s.lines + Terminate(t.before)), Drain, maxlen);
    EmitsRun(s1, t.during, maxlen);
    RunOne(s1.(lines := s1.lines + Terminate(t.during)), last, maxlen);
  }

  class Pusher {
    const capture: LogCapture
    var acked: nat
    ghost var accepted: seq<string>

    ghost predicate Valid()
      reads this, capture
    {
      capture.Valid()
    }

    ghost function View(): Shipper
      reads this, capture
    {
      Shipper(capture.lines, acked, Idle, accepted)
    }

    constructor (capture: LogCapture)
      requires capture.Valid() && capture.lines == []
      ensures Valid() && View() == START && this.capture == capture
    {
      this.capture, acked, accepted := capture, 0, [];
    }

    /** One turn of the loop. */
    method Push(t: Tick)
      requires Valid()
      modifies this, capture
      ensures Valid() && View() == RunFrom(old(View()), TickEvents(t), capture.maxlen)
    {
      hide TextSince, Ring, Offset;
      TickRun(View(), t, capture.maxlen);
      capture.EmitAll(t.before);
      var chunk, newOffset := capture.DrainSince(acked);
      capture.EmitAll(t.during);
      if chunk != "" && t.ok {
        acked := newOffset;
        accepted := accepted + [chunk];
      }
    }

    /** The loop, for as long as somebody watches the log. */
    method Loop(ticks: seq<Tick>) returns (ghost es: seq<Event>)
      requires Valid()
      modifies this, capture
      ensures Valid() && View() == RunFrom(old(View()), es, capture.maxlen)
    {
      es := [];
      for i := 0 to |ticks|
        invariant Valid() && View() == RunFrom(old(View()), es, capture.maxlen)
      {
        Push(ticks[i]);
        RunSplit(old(View()), es, TickEvents(ticks[i]), capture.maxlen);
        es := es + TickEvents(ticks[i]);
      }
    }
  }
}
