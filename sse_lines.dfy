/**
 * The carry-over line buffer that both ends of the event stream use:
 * `lines = buffer.split('\n'); buffer = lines.pop() || ''`.
 * Every complete line (one followed by a line feed) is handed on; the unterminated tail
 * stays in the buffer until more text arrives.
 */
module SseLines {
  import opened Text

  /** The text of `lines`, each followed by a line feed. */
  function Terminated(lines: seq<string>): string {
    if lines == [] then "" else lines[0] + "\n" + Terminated(lines[1..])
  }

  /**
   * One split step. The complete lines and the carried tail together are exactly the
   * buffer (the split is lossless), and neither the tail nor any line holds a line feed.
   */
  function SplitLines(buffer: string): (r: (seq<string>, string))
    ensures NoneContains(r.0, '\n') && '\n' !in r.1
    ensures Terminated(r.0) + r.1 == buffer
  {
    var parts := Split(buffer, '\n');
    var n := |parts|;
    JoinIsTerminated(parts);
    (parts[..n - 1], parts[n - 1])
  }

  lemma {:induction false} JoinIsTerminated(parts: seq<string>)
    requires |parts| >= 1
    ensures Join(parts, '\n') == Terminated(parts[..|parts| - 1]) + parts[|parts| - 1]
  {
    if |parts| > 1 {
      JoinIsTerminated(parts[1..]);
      assert parts[1..][..|parts| - 2] == parts[..|parts| - 1][1..];
    }
  }

  lemma {:induction false} TerminatedAppend(a: seq<string>, b: seq<string>)
    ensures Terminated(a + b) == Terminated(a) + Terminated(b)
  {
    if a != [] {
      assert (a + b)[1..] == a[1..] + b;
      TerminatedAppend(a[1..], b);
    } else {
      assert a + b == b;
    }
  }

  /** The split is determined by its result: text built from lines and a tail splits back into them. */
  lemma SplitLinesUnique(lines: seq<string>, tail: string)
    requires NoneContains(lines, '\n') && '\n' !in tail
    ensures SplitLines(Terminated(lines) + tail) == (lines, tail)
  {
    var parts := lines + [tail];
    JoinIsTerminated(parts);
    assert parts[..|parts| - 1] == lines;
    SplitJoin(parts, '\n');
  }

  /**
   * Splitting text that begins with already terminated lines hands those lines on first and
   * then splits what follows: the basis for feeding a stream chunk by chunk.
   */
  lemma SplitLinesAfter(lines: seq<string>, tail: string, more: string)
    requires NoneContains(lines, '\n') && '\n' !in tail
    ensures SplitLines(Terminated(lines) + tail + more)
         == (lines + SplitLines(tail + more).0, SplitLines(tail + more).1)
  {
    var r := SplitLines(tail + more);
    SplitLinesBehind(lines, tail + more, r.0, r.1);
    assert Terminated(lines) + tail + more == Terminated(lines) + (tail + more);
  }

  /** Lines `l2` and tail `t2` that make up `rest` make up, behind `lines`, the whole text. */
  lemma SplitLinesBehind(lines: seq<string>, rest: string, l2: seq<string>, t2: string)
    requires NoneContains(lines, '\n') && NoneContains(l2, '\n') && '\n' !in t2
    requires Terminated(l2) + t2 == rest
    ensures SplitLines(Terminated(lines) + rest) == (lines + l2, t2)
  {
    assert Terminated(lines + l2) + t2 == Terminated(lines) + rest by {
      TerminatedAppend(lines, l2);
    }
    assert NoneContains(lines + l2, '\n') by {
      forall k | 0 <= k < |lines + l2| ensures '\n' !in (lines + l2)[k] {
        if k >= |lines| {
          assert (lines + l2)[k] == l2[k - |lines|];
        }
      }
    }
    SplitLinesUnique(lines + l2, t2);
  }
}
