/** The live log of a running job, which is cut off at a fixed length (append_log in
    job_queue.py). The source counts characters, whatever the constant's name says. */
module StreamLog {
  import opened LogShipping

  const MAX_LOG := 512 * 1024

  const MARKER := "\n\n--- LOG TRUNCATED (exceeded 512 KB) ---\n"

  /** Some number of whole chunks is exactly n characters long. */
  predicate BoundaryAt(chunks: seq<string>, n: nat) {
    exists k | 0 <= k <= |chunks| :: |Join(chunks[..k])| == n
  }

  /** What the log of these chunks is: all of it if it fits; otherwise its beginning and
      the marker, or just its beginning if a chunk ended exactly at the limit. */
  function Capped(chunks: seq<string>): string {
    var full := Join(chunks);
    if |full| <= MAX_LOG then full
    else if BoundaryAt(chunks, MAX_LOG) then full[..MAX_LOG]
    else full[..MAX_LOG - |MARKER|] + MARKER
  }

  lemma BoundarySnoc(chunks: seq<string>, text: string, n: nat)
    ensures BoundaryAt(chunks + [text], n) <==> BoundaryAt(chunks, n) || |Join(chunks + [text])| == n
  {
    var more := chunks + [text];
    assert forall k | 0 <= k <= |chunks| :: more[..k] == chunks[..k];
    assert more[..|more|] == more;
  }

  lemma {:induction false} BoundaryBelow(chunks: seq<string>, n: nat)
    requires BoundaryAt(chunks, n)
    ensures n <= |Join(chunks)|
  {
    if chunks != [] {
      var front, last := chunks[..|chunks| - 1], chunks[|chunks| - 1];
      assert chunks == front + [last];
      BoundarySnoc(front, last, n);
      if BoundaryAt(front, n) {
        BoundaryBelow(front, n);
      }
    }
  }

  /** The log never exceeds the limit, and once it has reached it, it never changes. */
  lemma FullLogIsFrozen(chunks: seq<string>, text: string)
    ensures |Capped(chunks)| <= MAX_LOG
    ensures |Capped(chunks)| == MAX_LOG ==> Capped(chunks + [text]) == Capped(chunks)
  {
    var full, more := Join(chunks), Join(chunks + [text]);
    JoinSnoc(chunks, text);
    BoundarySnoc(chunks, text, MAX_LOG);
    if |full| == MAX_LOG {
      assert chunks[..|chunks|] == chunks;
      assert text == "" ==> more == full;
      assert more[..MAX_LOG] == full;
    } else if |full| > MAX_LOG {
      assert more[..MAX_LOG] == full[..MAX_LOG];
      assert more[..MAX_LOG - |MARKER|] == full[..MAX_LOG - |MARKER|];
    }
  }

  /** A log that is still growing has everything. */
  lemma GrowingLogIsComplete(chunks: seq<string>)
    requires |Capped(chunks)| < MAX_LOG
    ensures Capped(chunks) == Join(chunks) && !BoundaryAt(chunks, MAX_LOG)
  {
    if BoundaryAt(chunks, MAX_LOG) {
      BoundaryBelow(chunks, MAX_LOG);
    }
  }

  lemma CappedInFull(chunks: seq<string>)
    ensures var full, text := Join(chunks), Capped(chunks);
      && (|full| <= 524288 ==> text == full)
      && (|full| > 524288 ==> |text| == 524288)
      && (|full| > 524288 && BoundaryAt(chunks, 524288) ==> text == full[..524288])
      && (|full| > 524288 && !BoundaryAt(chunks, 524288) ==>
            text == full[..524288 - 42] + "\n\n--- LOG TRUNCATED (exceeded 512 KB) ---\n")
  {
    hide BoundaryAt, Join;
  }

  class JobLog {
    var text: string
    ghost var chunks: seq<string>

    /** The text has the closed form, for every sequence of chunks. */
    ghost predicate Valid()
      reads this
    {
      text == Capped(chunks)
    }

    constructor ()
      ensures Valid() && chunks == []
    {
      text, chunks := "", [];
    }

    method Append(chunk: string)
      requires Valid()
      modifies this
      ensures Valid() && chunks == old(chunks) + [chunk]
      ensures |Join(chunks)| <= 524288 ==> text == Join(chunks)
      ensures |Join(chunks)| > 524288 ==> |text| == 524288
      ensures |Join(chunks)| > 524288 && BoundaryAt(chunks, 524288) ==> text == Join(chunks)[..524288]
      ensures |Join(chunks)| > 524288 && !BoundaryAt(chunks, 524288) ==>
        text == Join(chunks)[..524288 - 42] + "\n\n--- LOG TRUNCATED (exceeded 512 KB) ---\n"
    {
      CappedInFull(chunks + [chunk]);
      hide BoundaryAt, Capped, Join;
      ghost var was := chunks;
      chunks := chunks + [chunk];
      FullLogIsFrozen(was, chunk);
      if |text| >= MAX_LOG {
        return;
      }
      GrowingLogIsComplete(was);
      AppendCases(was, chunk);
      var budget := MAX_LOG - |text|;
      if |chunk| <= budget {
        text := text + chunk;
      } else if budget >= |MARKER| {
        text := text + chunk[..budget - |MARKER|] + MARKER;
      } else {
        text := text[..Max(0, MAX_LOG - |MARKER|)] + MARKER;
      }
    }
  }

  lemma AppendCases(chunks: seq<string>, text: string)
    requires |Join(chunks)| < MAX_LOG && !BoundaryAt(chunks, MAX_LOG)
    ensures var full, budget := Join(chunks), MAX_LOG - |Join(chunks)|;
      Capped(chunks + [text])
        == if |text| <= budget then full + text
           else if budget >= |MARKER| then full + text[..budget - |MARKER|] + MARKER
           else full[..MAX_LOG - |MARKER|] + MARKER
  {
    var full, budget := Join(chunks), MAX_LOG - |Join(chunks)|;
    JoinSnoc(chunks, text);
    BoundarySnoc(chunks, text, MAX_LOG);
    if |text| > budget {
      if budget >= |MARKER| {
        assert (full + text)[..MAX_LOG - |MARKER|] == full + text[..budget - |MARKER|];
      } else {
        assert (full + text)[..MAX_LOG - |MARKER|] == full[..MAX_LOG - |MARKER|];
      }
    }
  }
}
