/**
 * The tail window of a log file: the lines a follower pushes into its
 * history buffer before it starts following the file (getLastLinesFromFile).
 */
module Window {
  import opened Wrappers

  /** HISTORY_SIZE: the number of recent lines kept per source. */
  const HistorySize: nat := 50

  /** The last `n` lines of `lines`, or all of them when there are no more than `n`. */
  function LastN(lines: seq<string>, n: nat): (r: seq<string>)
    ensures |r| == if |lines| <= n then |lines| else n
    ensures forall j :: 0 <= j < |r| ==> r[j] == lines[|lines| - |r| + j]
    ensures |lines| <= n ==> r == lines
  {
    if |lines| > n then lines[|lines| - n..] else lines
  }

  /**
   * What getLastLinesFromFile returns for a file that holds `file`
   * (None: the file cannot be opened).
   */
  function LastLines(file: Option<seq<string>>, n: nat): (r: seq<string>)
    ensures |r| <= n
    ensures file.None? ==> r == []
    ensures file.Some? ==> r == LastN(file.value, n)
  {
    match file
    case None => []
    case Some(lines) => LastN(lines, n)
  }

  /**
   * getLastLinesFromFile: collect every line of the file, one scan step at a
   * time, then keep the last `n`. An unreadable file gives no lines.
   */
  method GetLastLinesFromFile(file: Option<seq<string>>, n: nat) returns (r: seq<string>)
    ensures r == LastLines(file, n)
  {
    if file.None? {
      return [];
    }
    var contents := file.value;
    var lines: seq<string> := [];
    var i := 0;
    while i < |contents|
      invariant 0 <= i <= |contents|
      invariant lines == contents[..i]
    {
      lines := lines + [contents[i]];
      i := i + 1;
    }
    assert lines == contents;
    if |lines| > n {
      return lines[|lines| - n..];
    }
    return lines;
  }

  /** Taking the window twice is the same as taking it once. */
  lemma LastNIdempotent(lines: seq<string>, n: nat)
    ensures LastN(LastN(lines, n), n) == LastN(lines, n)
  {
  }

  /**
   * Appending one line to a window and re-windowing gives the window of
   * the whole stream with that line appended: the window forgets nothing
   * that a later window would need.
   */
  lemma LastNSlide(lines: seq<string>, t: string, n: nat)
    ensures LastN(LastN(lines, n) + [t], n) == LastN(lines + [t], n)
  {
  }

  /**
   * Appending one line to a buffer of at most `n` lines and evicting the
   * oldest line when the buffer then holds more than `n`, as the hub does,
   * keeps exactly the last `n` lines.
   */
  lemma EvictOldest(h: seq<string>, t: string, n: nat)
    requires |h| <= n
    ensures var a := h + [t]; (if |a| > n then a[1..] else a) == LastN(a, n)
  {
  }

  /**
   * Seeding a buffer with the window of a file and then appending a batch
   * of live lines, windowed again, gives the window of the file followed
   * by those lines: `LastN(LastN(file, 50) + live, 50) == LastN(file + live, 50)`.
   */
  lemma {:induction false} LastNAppend(lines: seq<string>, more: seq<string>, n: nat)
    ensures LastN(LastN(lines, n) + more, n) == LastN(lines + more, n)
  {
    if |lines| > n {
      assert LastN(lines, n) + more == (lines + more)[|lines| - n..];
    }
  }
}
