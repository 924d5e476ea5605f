/** sentinel-agent/watcher.py: tailing one file over appends and rotations. Text is a sequence
    of decoded characters, and one poll sees one state of the disk. */
module Watcher {
  import opened Collections

  // ----- lines -----

  /** The position of the first newline from `i` on, or the length when there is none. */
  function NextNewline(t: string, i: nat): (k: nat)
    ensures i <= |t| ==> i <= k <= |t|
    ensures k < |t| ==> i <= k && t[k] == '\n'
    decreases |t| - i
  {
    if i >= |t| then |t| else if t[i] == '\n' then i else NextNewline(t, i + 1)
  }

  lemma {:induction false} NoNewlineBefore(t: string, i: nat)
    ensures forall j :: i <= j < NextNewline(t, i) && j < |t| ==> t[j] != '\n'
    decreases |t| - i
  {
    if i < |t| && t[i] != '\n' {
      NoNewlineBefore(t, i + 1);
    }
  }

  lemma {:induction false} NextNewlineIs(t: string, i: nat, k: nat)
    requires i <= k <= |t| && (k < |t| ==> t[k] == '\n') && forall j :: i <= j < k ==> t[j] != '\n'
    ensures NextNewline(t, i) == k
    decreases |t| - i
  {
    if i < k {
      NextNewlineIs(t, i + 1, k);
    }
  }

  /** line.rstrip("\r\n"). */
  function Stripped(s: string): string {
    if |s| > 0 && (s[|s| - 1] == '\n' || s[|s| - 1] == '\r') then Stripped(s[..|s| - 1]) else s
  }

  /** The newline-terminated lines of a text from an offset on, which a truncation may have left
      beyond the end. */
  function Lines(t: string, i: nat): seq<string>
    decreases |t| - i
  {
    var k := NextNewline(t, i);
    if k >= |t| then [] else [Stripped(t[i..k + 1])] + Lines(t, k + 1)
  }

  /** The offset past the last of them. */
  function End(t: string, i: nat): (r: nat)
    ensures i <= r && (i <= |t| ==> r <= |t|)
    decreases |t| - i
  {
    var k := NextNewline(t, i);
    if k >= |t| then i else End(t, k + 1)
  }

  lemma {:induction false} EndIsPastLastNewline(t: string, i: nat)
    ensures End(t, i) > i ==> i < |t| && t[End(t, i) - 1] == '\n'
    ensures forall j :: End(t, i) <= j < |t| ==> t[j] != '\n'
    decreases |t| - i
  {
    var k := NextNewline(t, i);
    NoNewlineBefore(t, i);
    if k < |t| {
      EndIsPastLastNewline(t, k + 1);
    }
  }

  lemma NothingMore(t: string, i: nat)
    ensures Lines(t, End(t, i)) == [] && End(t, End(t, i)) == End(t, i)
  {
    EndIsPastLastNewline(t, i);
    if End(t, i) <= |t| {
      NextNewlineIs(t, End(t, i), |t|);
    }
  }

  function Joined(lines: seq<string>): string {
    if lines == [] then "" else lines[0] + "\n" + Joined(lines[1..])
  }

  lemma StrippedLine(s: string)
    requires |s| > 0 && s[|s| - 1] == '\n'
    requires forall j :: 0 <= j < |s| - 1 ==> s[j] != '\n' && s[j] != '\r'
    ensures Stripped(s) == s[..|s| - 1]
  {
    var body := s[..|s| - 1];
    assert |body| > 0 ==> body[|body| - 1] == s[|s| - 2];
    assert Stripped(body) == body;
  }

  lemma JoinedCons(line: string, lines: seq<string>)
    ensures Joined([line] + lines) == line + "\n" + Joined(lines)
  {
    assert ([line] + lines)[1..] == lines;
  }

  /** A text without carriage returns up to its first newline. */
  lemma FirstLineText(t: string, i: nat)
    requires i <= NextNewline(t, i) < |t| && forall j :: i <= j < |t| ==> t[j] != '\r'
    ensures Stripped(t[i..NextNewline(t, i) + 1]) == t[i..NextNewline(t, i)]
  {
    var k := NextNewline(t, i);
    var line := t[i..k + 1];
    NoNewlineBefore(t, i);
    assert line[|line| - 1] == t[k];
    assert forall j :: 0 <= j < |line| - 1 ==> line[j] == t[i + j];
    StrippedLine(line);
    assert line[..|line| - 1] == t[i..k];
  }

  lemma TextOfOneLine(t: string, i: nat, k: nat, end: nat)
    requires i <= k < end <= |t| && t[k] == '\n'
    ensures t[i..k] + "\n" + t[k + 1..end] == t[i..end]
  {
  }

  lemma PeelText(t: string, i: nat)
    requires i <= NextNewline(t, i) < |t| && forall j :: i <= j < |t| ==> t[j] != '\r'
    ensures Lines(t, i) == [t[i..NextNewline(t, i)]] + Lines(t, NextNewline(t, i) + 1)
    ensures End(t, i) == End(t, NextNewline(t, i) + 1)
  {
    FirstLineText(t, i);
  }

  lemma JoinedSplit(lines: seq<string>, line: string, rest: seq<string>, text: string, a: string, b: string)
    requires lines == [line] + rest && line == a && Joined(rest) == b && a + "\n" + b == text
    ensures Joined(lines) == text
  {
    JoinedCons(line, rest);
  }

  lemma TextFromNext(t: string, i: nat)
    requires i <= NextNewline(t, i) < |t| && forall j :: i <= j < |t| ==> t[j] != '\r'
    requires Joined(Lines(t, NextNewline(t, i) + 1)) == t[NextNewline(t, i) + 1..End(t, NextNewline(t, i) + 1)]
    ensures Joined(Lines(t, i)) == t[i..End(t, i)]
  {
    var k := NextNewline(t, i);
    var end := End(t, k + 1);
    PeelText(t, i);
    TextOfOneLine(t, i, k, end);
    JoinedSplit(Lines(t, i), t[i..k], Lines(t, k + 1), t[i..end], t[i..k], t[k + 1..end]);
  }

  /** The lines are the text: ended with newlines again and put together, they give back what
      lies between the offset and the last newline. */
  lemma {:induction false} LinesGiveBackTheText(t: string, i: nat)
    requires i <= |t| && forall j :: i <= j < |t| ==> t[j] != '\r'
    ensures Joined(Lines(t, i)) == t[i..End(t, i)]
    decreases |t| - i
  {
    var k := NextNewline(t, i);
    if k < |t| {
      LinesGiveBackTheText(t, k + 1);
      TextFromNext(t, i);
    }
  }

  function FirstLine(t: string, i: nat): string
    requires i <= NextNewline(t, i) < |t|
  {
    Stripped(t[i..NextNewline(t, i) + 1])
  }

  lemma FirstLineStays(t: string, u: string, i: nat)
    requires i <= NextNewline(t, i) < |t| && t <= u
    ensures NextNewline(u, i) == NextNewline(t, i) && FirstLine(u, i) == FirstLine(t, i)
  {
    var k := NextNewline(t, i);
    NoNewlineBefore(t, i);
    NextNewlineIs(u, i, k);
    assert u[i..k + 1] == t[i..k + 1];
  }

  lemma PeelFirst(t: string, i: nat)
    requires i <= NextNewline(t, i) < |t|
    ensures Lines(t, i) == [FirstLine(t, i)] + Lines(t, NextNewline(t, i) + 1)
    ensures End(t, i) == End(t, NextNewline(t, i) + 1)
  {
  }

  /** Reading on from the end of `t` in `u` completes the reading of `u`. */
  ghost predicate ReadsOn(t: string, u: string, i: nat) {
    Lines(u, i) == Lines(t, i) + Lines(u, End(t, i)) && End(u, i) == End(u, End(t, i))
  }

  lemma ReadsOnFromHere(t: string, u: string, i: nat)
    requires NextNewline(t, i) == |t|
    ensures ReadsOn(t, u, i)
  {
    assert [] + Lines(u, i) == Lines(u, i);
  }

  lemma ReadsOnFromNext(t: string, u: string, i: nat)
    requires i <= NextNewline(t, i) < |t| <= |u|
    requires NextNewline(u, i) == NextNewline(t, i) && FirstLine(u, i) == FirstLine(t, i)
    requires ReadsOn(t, u, NextNewline(t, i) + 1)
    ensures ReadsOn(t, u, i)
  {
    var k := NextNewline(t, i);
    PeelFirst(t, i);
    PeelFirst(u, i);
    PrependSplit(
      FirstLine(t, i), Lines(u, i), Lines(u, k + 1), Lines(t, i), Lines(t, k + 1), Lines(u, End(t, i)));
  }

  lemma ReadsOnStep(t: string, u: string, i: nat)
    requires i <= NextNewline(t, i) < |t| && t <= u && ReadsOn(t, u, NextNewline(t, i) + 1)
    ensures ReadsOn(t, u, i)
  {
    FirstLineStays(t, u, i);
    ReadsOnFromNext(t, u, i);
  }

  /** Reading a text as far as it was once written and then on from there, when more has been
      appended, gives the same lines as reading it at once. */
  lemma {:induction false} ChunksDoNotMatter(t: string, u: string, i: nat)
    requires i <= |t| && t <= u
    ensures Lines(u, i) == Lines(t, i) + Lines(u, End(t, i))
    ensures End(u, i) == End(u, End(t, i))
    decreases |t| - i
  {
    var k := NextNewline(t, i);
    if k == |t| {
      ReadsOnFromHere(t, u, i);
    } else {
      ChunksDoNotMatter(t, u, k + 1);
      ReadsOnStep(t, u, i);
    }
  }

  /** Starting later in the same line changes nothing but that line. */
  lemma SameNewline(t: string, i: nat, j: nat)
    requires i <= j <= |t| && forall m :: i <= m < j ==> t[m] != '\n'
    ensures
      var k := NextNewline(t, j);
      if k == |t| then Lines(t, i) == Lines(t, j) == []
      else
        && Lines(t, i) == [Stripped(t[i..k + 1])] + Lines(t, k + 1)
        && Lines(t, j) == [Stripped(t[j..k + 1])] + Lines(t, k + 1)
  {
    var k := NextNewline(t, j);
    NoNewlineBefore(t, j);
    NextNewlineIs(t, i, k);
    if k < |t| {
      PeelFirst(t, i);
      PeelFirst(t, j);
    }
  }

  // ----- the watched file -----

  datatype Handle = Handle(inode: nat, offset: nat)

  /** What the path resolves to, and the contents by inode; an open file outlives its name. */
  datatype Disk = Disk(path: Option<nat>, files: map<nat, string>)

  /** An OSError other than FileNotFoundError, and the call that raises it. */
  datatype Fault = NoFault | OpenFault | ReadFault | StatFault | ReopenFault | RereadFault

  predicate DiskHolds(disk: Disk, handle: Option<Handle>) {
    && (disk.path.Some? ==> disk.path.value in disk.files)
    && (handle.Some? ==> handle.value.inode in disk.files)
  }

  /** The path names another file, or the file has become shorter than what was read. */
  predicate NeedsReopen(disk: Disk, h: Handle)
    requires DiskHolds(disk, Some(h))
  {
    disk.path.Some? && (disk.path.value != h.inode || |disk.files[disk.path.value]| < h.offset)
  }

  /** The lines and the handle that a poll without a fault returns. */
  function PollResult(disk: Disk, handle: Option<Handle>): (seq<string>, Option<Handle>)
    requires DiskHolds(disk, handle)
  {
    match handle
    case None =>
      ([], if disk.path.None? then None else Some(Handle(disk.path.value, |disk.files[disk.path.value]|)))
    case Some(h) =>
      var first := Lines(disk.files[h.inode], h.offset);
      var after := h.(offset := End(disk.files[h.inode], h.offset));
      if NeedsReopen(disk, after) then
        var content := disk.files[disk.path.value];
        (first + Lines(content, 0), Some(Handle(disk.path.value, End(content, 0))))
      else (first, Some(after))
  }

  /** Nothing but carriage returns up to the first newline: an offset in there cuts nothing off
      that rstrip would not remove. */
  predicate BlankUpToNewline(t: string) {
    forall j :: 0 <= j < NextNewline(t, 0) ==> t[j] == '\r'
  }

  /** A file truncated in place and grown again. A poll that finds it shorter than what was read
      returns its lines from the start. One that does not returns them all exactly if the offset
      is 0, if there is no complete line yet, or if the offset lies in a blank first line. */
  lemma TruncationIsSeenWhenShorter(disk: Disk, h: Handle)
    requires disk.path == Some(h.inode) && h.inode in disk.files
    ensures
      var content := disk.files[h.inode];
      var k := NextNewline(content, 0);
      PollResult(disk, Some(h)).0 == Lines(content, 0)
      <==> |content| < h.offset || h.offset == 0 || k == |content| || (h.offset <= k && BlankUpToNewline(content))
    ensures |disk.files[h.inode]| < h.offset ==>
              PollResult(disk, Some(h)).1 == Some(Handle(h.inode, End(disk.files[h.inode], 0)))
  {
    var content := disk.files[h.inode];
    if |content| < h.offset {
      assert [] + Lines(content, 0) == Lines(content, 0);
    } else {
      SameLinesFrom(content, h.offset);
    }
  }

  /** Where the line begins that position `n` lies in. */
  function LineBegin(t: string, n: nat): nat
    requires n <= |t|
  {
    End(t[..n], 0)
  }

  lemma LineBeginFacts(t: string, n: nat)
    requires n <= |t|
    ensures LineBegin(t, n) <= n
    ensures forall m :: LineBegin(t, n) <= m < n ==> t[m] != '\n'
    ensures LineBegin(t, n) > 0 ==> t[LineBegin(t, n) - 1] == '\n'
  {
    var before := t[..n];
    EndIsPastLastNewline(before, 0);
    assert forall m :: 0 <= m < n ==> t[m] == before[m];
  }

  lemma LinesBefore(t: string, n: nat)
    requires n <= |t|
    ensures Lines(t, 0) == Lines(t[..n], 0) + Lines(t, LineBegin(t, n))
  {
    ChunksDoNotMatter(t[..n], t, 0);
  }

  /** Reading from inside a line. */
  lemma LinesCutAt(t: string, n: nat)
    requires n <= |t|
    ensures
      var begin, k := LineBegin(t, n), NextNewline(t, n);
      if k == |t| then Lines(t, 0) == Lines(t[..n], 0) && Lines(t, n) == []
      else
        && begin <= n
        && Lines(t, 0) == Lines(t[..n], 0) + ([Stripped(t[begin..k + 1])] + Lines(t, k + 1))
        && Lines(t, n) == [Stripped(t[n..k + 1])] + Lines(t, k + 1)
  {
    LineBeginFacts(t, n);
    LinesBefore(t, n);
    SameNewline(t, LineBegin(t, n), n);
    assert Lines(t[..n], 0) + [] == Lines(t[..n], 0);
  }

  /** What is returned otherwise: the lines that end before the offset are missing, the line that
      the offset lies in comes without its beginning, and the rest is complete. */
  lemma UnseenTruncationCutsALine(disk: Disk, h: Handle)
    requires disk.path == Some(h.inode) && h.inode in disk.files && h.offset <= |disk.files[h.inode]|
    ensures
      var t, n := disk.files[h.inode], h.offset;
      var begin, k := LineBegin(t, n), NextNewline(t, n);
      && begin <= n && (begin > 0 ==> t[begin - 1] == '\n') && (forall m :: begin <= m < n ==> t[m] != '\n')
      && if k == |t| then Lines(t, 0) == Lines(t[..n], 0) && PollResult(disk, Some(h)).0 == []
         else
           && Lines(t, 0) == Lines(t[..n], 0) + ([Stripped(t[begin..k + 1])] + Lines(t, k + 1))
           && PollResult(disk, Some(h)).0 == [Stripped(t[n..k + 1])] + Lines(t, k + 1)
  {
    LineBeginFacts(disk.files[h.inode], h.offset);
    LinesCutAt(disk.files[h.inode], h.offset);
  }

  /** Reading from an offset gives all lines only if it leaves none out and cuts none. */
  lemma SameLinesFrom(t: string, n: nat)
    requires n <= |t|
    ensures
      var k := NextNewline(t, 0);
      Lines(t, n) == Lines(t, 0) <==> n == 0 || k == |t| || (n <= k && BlankUpToNewline(t))
  {
    var k := NextNewline(t, 0);
    if k == |t| {
      NoNewlineBefore(t, 0);
      NextNewlineIs(t, n, |t|);
    } else if n > k {
      FewerLinesFrom(t, n);
    } else {
      NoNewlineBefore(t, 0);
      NextNewlineIs(t, n, k);
      SameNewline(t, 0, n);
      HeadsDecide(Stripped(t[n..k + 1]), Stripped(t[0..k + 1]), Lines(t, k + 1));
      StrippedTails(t, n, k);
    }
  }

  lemma HeadsDecide(x: string, y: string, rest: seq<string>)
    ensures [x] + rest == [y] + rest <==> x == y
  {
    assert ([x] + rest)[0] == x && ([y] + rest)[0] == y;
  }

  lemma FewerLinesFrom(t: string, n: nat)
    requires NextNewline(t, 0) < n <= |t|
    ensures |Lines(t, n)| < |Lines(t, 0)|
  {
    var k := NextNewline(t, 0);
    FewerOrEqualFrom(t, k + 1, n);
    PeelFirst(t, 0);
  }

  lemma {:induction false} FewerOrEqualFrom(t: string, i: nat, n: nat)
    requires i <= n <= |t|
    ensures |Lines(t, n)| <= |Lines(t, i)|
    decreases n - i
  {
    var k := NextNewline(t, i);
    NoNewlineBefore(t, i);
    if k < n {
      PeelFirst(t, i);
      FewerOrEqualFrom(t, k + 1, n);
    } else {
      SameNewline(t, i, n);
    }
  }

  /** The first line and a tail of it come to the same after rstrip only if both are blank. */
  lemma StrippedTails(t: string, n: nat, k: nat)
    requires n <= k < |t| && t[k] == '\n' && forall j :: 0 <= j < k ==> t[j] != '\n'
    ensures Stripped(t[n..k + 1]) == Stripped(t[0..k + 1]) <==> n == 0 || forall j :: 0 <= j < k ==> t[j] == '\r'
  {
    StrippedTo(t, 0, k);
    StrippedTo(t, n, k);
  }

  /** The position where the trailing carriage returns of t[i..k] begin. */
  function Blanks(t: string, i: nat, k: nat): (b: nat)
    requires i <= k <= |t|
    ensures i <= b <= k
    ensures forall j :: b <= j < k ==> t[j] == '\r'
    ensures b > i ==> t[b - 1] != '\r'
    decreases k - i
  {
    if k > i && t[k - 1] == '\r' then Blanks(t, i, k - 1) else k
  }

  lemma StrippedTo(t: string, i: nat, k: nat)
    requires i <= k < |t| && t[k] == '\n' && forall j :: i <= j < k ==> t[j] != '\n'
    ensures Stripped(t[i..k + 1]) == t[i..Blanks(t, i, k)]
  {
    assert t[i..k + 1][..k - i] == t[i..k];
    StrippedReturns(t, i, k);
  }

  lemma {:induction false} StrippedReturns(t: string, i: nat, k: nat)
    requires i <= k <= |t| && forall j :: i <= j < k ==> t[j] != '\n'
    ensures Stripped(t[i..k]) == t[i..Blanks(t, i, k)]
    decreases k - i
  {
    if k > i {
      assert t[i..k][|t[i..k]| - 1] == t[k - 1];
      if t[k - 1] == '\r' {
        assert t[i..k][..k - 1 - i] == t[i..k - 1];
        StrippedReturns(t, i, k - 1);
      }
    }
  }

  class FileState {
    var handle: Option<Handle>
    var signature: Option<nat>

    ghost predicate Valid()
      reads this
    {
      signature == if handle.Some? then Some(handle.value.inode) else None
    }

    constructor ()
      ensures Valid() && handle == None
    {
      handle, signature := None, None;
    }

    method Close()
      modifies this
      ensures Valid() && handle == None
    {
      handle, signature := None, None;
    }

    /** False stands for FileNotFoundError. */
    method Open(disk: Disk, startAtEnd: bool) returns (found: bool)
      requires DiskHolds(disk, None)
      modifies this
      ensures found <==> disk.path.Some?
      ensures found ==> Valid()
      ensures found ==> handle == Some(Handle(disk.path.value, if startAtEnd then |disk.files[disk.path.value]| else 0))
      ensures !found ==> handle == old(handle) && signature == old(signature)
    {
      if disk.path.None? {
        return false;
      }
      var inode := disk.path.value;
      handle := Some(Handle(inode, if startAtEnd then |disk.files[inode]| else 0));
      signature := Some(inode);
      return true;
    }

    method ReadAvailableLines(disk: Disk) returns (lines: seq<string>)
      requires Valid() && handle.Some? && DiskHolds(disk, handle)
      modifies this`handle
      ensures Valid()
      ensures lines == Lines(disk.files[old(handle).value.inode], old(handle).value.offset)
      ensures handle == Some(Handle(
                old(handle).value.inode, End(disk.files[old(handle).value.inode], old(handle).value.offset)))
    {
      var inode := handle.value.inode;
      var content := disk.files[inode];
      ghost var goal, end := Lines(content, handle.value.offset), End(content, handle.value.offset);
      lines := [];
      while true
        invariant Valid() && handle.Some? && handle.value.inode == inode
        invariant lines + Lines(content, handle.value.offset) == goal
        invariant End(content, handle.value.offset) == end
        decreases |content| - handle.value.offset
      {
        var position := handle.value.offset;
        var k := NextNewline(content, position);
        if position >= |content| || k == |content| {
          break;
        }
        var line := Stripped(content[position..k + 1]);
        ConcatAssoc(lines, [line], Lines(content, k + 1));
        lines := lines + [line];
        handle := Some(Handle(inode, k + 1));
      }
    }

    method Poll(disk: Disk, fault: Fault) returns (lines: seq<string>)
      requires Valid() && DiskHolds(disk, handle)
      modifies this
      ensures Valid()
      ensures fault.NoFault? ==> (lines, handle) == PollResult(disk, old(handle))
      ensures (lines, handle) == PollResult(disk, old(handle)) || (lines == [] && handle == None)
      ensures old(handle).None? ==> lines == []
      ensures old(handle).None? && handle.Some? ==>
                disk.path.Some? && handle.value == Handle(disk.path.value, |disk.files[disk.path.value]|)
    {
      if handle.None? {
        if fault.OpenFault? {
          Close();
          return [];
        }
        var found := Open(disk, true);
        if !found {
          return [];
        }
      }
      if fault.ReadFault? {
        Close();
        return [];
      }
      lines := ReadAvailableLines(disk);
      if fault.StatFault? {
        Close();
        return [];
      }
      if disk.path.Some?
        && (Some(disk.path.value) != signature || |disk.files[disk.path.value]| < handle.value.offset)
      {
        Close();
        if fault.ReopenFault? {
          return [];
        }
        var found := Open(disk, false);
        if fault.RereadFault? {
          Close();
          return [];
        }
        var more := ReadAvailableLines(disk);
        lines := lines + more;
      }
    }
  }

  // ----- runs -----

  /** The generations of one log file, the newest last; the watcher's place in them, if it has
      opened one; the file and the length of it that the first poll found, if one has found it;
      and the lines returned so far. */
  datatype World = World(files: seq<string>, place: Option<Handle>, since: Option<Handle>, out: seq<string>)

  /** Write appends to the file that the path names, WriteOld to the one that the watcher still
      reads after a rotation; Rotate renames the file away, if there is one, and creates a new
      one. */
  datatype Event = Write(chunk: string) | WriteOld(chunk: string) | Rotate | Poll

  function DiskOf(files: seq<string>): Disk {
    Disk(if files == [] then None else Some(|files| - 1), map i: nat | 0 <= i < |files| :: files[i])
  }

  predicate InPlace(w: World) {
    w.place.Some? ==> w.place.value.inode < |w.files| && w.place.value.offset <= |w.files[w.place.value.inode]|
  }

  /** Once the watcher has opened a file, a second rotation waits for a poll: of two between
      polls it sees only one. */
  predicate Allowed(w: World, e: Event) {
    && InPlace(w)
    && match e
       case Write(_) => w.files != []
       case WriteOld(_) => w.place.Some?
       case Rotate => w.place.Some? ==> w.place.value.inode == |w.files| - 1
       case Poll => true
  }

  function Grown(files: seq<string>, i: nat, chunk: string): seq<string>
    requires i < |files|
  {
    files[i := files[i] + chunk]
  }

  function EndOfNewest(files: seq<string>): Handle
    requires files != []
  {
    Handle(|files| - 1, |files[|files| - 1]|)
  }

  function Polled(w: World): World
    requires InPlace(w)
  {
    var (lines, handle) := PollResult(DiskOf(w.files), w.place);
    World(w.files, handle,
      if w.since.None? && w.files != [] then Some(EndOfNewest(w.files)) else w.since, w.out + lines)
  }

  function NextWorld(w: World, e: Event): World
    requires Allowed(w, e)
  {
    match e
    case Write(chunk) => w.(files := Grown(w.files, |w.files| - 1, chunk))
    case WriteOld(chunk) => w.(files := Grown(w.files, w.place.value.inode, chunk))
    case Rotate => w.(files := w.files + [""])
    case Poll => Polled(w)
  }

  predicate IsRun(w: World, run: seq<Event>)
    decreases |run|
  {
    run == [] || (Allowed(w, run[0]) && IsRun(NextWorld(w, run[0]), run[1..]))
  }

  function After(w: World, run: seq<Event>): World
    requires IsRun(w, run)
    decreases |run|
  {
    if run == [] then w else After(NextWorld(w, run[0]), run[1..])
  }

  /** Where the reading of generation `g` begins. */
  function From(since: Handle, g: nat): nat {
    if g == since.inode then since.offset else 0
  }

  /** The complete lines of the generations before `n`, from the first poll that found one on. */
  function LinesUpTo(files: seq<string>, since: Handle, n: nat): seq<string>
    requires n <= |files|
  {
    if n <= since.inode then [] else LinesUpTo(files, since, n - 1) + Lines(files[n - 1], From(since, n - 1))
  }

  /** What has been returned, with the lines ahead of the offset, is what came before this file
      and the lines of this file; and the offset will end up where they end. */
  ghost predicate Owes(before: seq<string>, t: string, from: nat, out: seq<string>, offset: nat) {
    && from <= offset <= |t|
    && before + Lines(t, from) == out + Lines(t, offset)
    && End(t, from) == End(t, offset)
  }

  lemma OwesAppend(before: seq<string>, t: string, from: nat, out: seq<string>, offset: nat, chunk: string)
    requires Owes(before, t, from, out, offset)
    ensures Owes(before, t + chunk, from, out, offset)
  {
    ChunksDoNotMatter(t, t + chunk, from);
    ChunksDoNotMatter(t, t + chunk, offset);
    var more := Lines(t + chunk, End(t, from));
    ConcatAssoc(before, Lines(t, from), more);
    ConcatAssoc(out, Lines(t, offset), more);
  }

  lemma OwesRead(before: seq<string>, t: string, from: nat, out: seq<string>, offset: nat)
    requires Owes(before, t, from, out, offset)
    ensures Owes(before, t, from, out + Lines(t, offset), End(t, offset))
    ensures out + Lines(t, offset) == before + Lines(t, from)
  {
    NothingMore(t, offset);
  }

  lemma OwesNew(out: seq<string>, t: string)
    ensures Owes(out, t, 0, out + Lines(t, 0), End(t, 0))
  {
    NothingMore(t, 0);
  }

  ghost predicate CaughtAt(files: seq<string>, h: Handle, since: Handle, out: seq<string>) {
    && since.inode <= h.inode < |files| <= h.inode + 2
    && Owes(LinesUpTo(files, since, h.inode), files[h.inode], From(since, h.inode), out, h.offset)
  }

  ghost predicate Caught(w: World) {
    if w.since.None? then w.place.None? && w.out == []
    else w.place.Some? && CaughtAt(w.files, w.place.value, w.since.value, w.out)
  }

  lemma {:induction false} LinesUpToSame(a: seq<string>, b: seq<string>, since: Handle, n: nat)
    requires n <= |a| && n <= |b| && forall i :: 0 <= i < n ==> a[i] == b[i]
    ensures LinesUpTo(a, since, n) == LinesUpTo(b, since, n)
  {
    if n > since.inode {
      LinesUpToSame(a, b, since, n - 1);
    }
  }

  /** Text appended to the file at the watcher's place. */
  lemma CaughtAppend(files: seq<string>, h: Handle, since: Handle, out: seq<string>, chunk: string)
    requires CaughtAt(files, h, since, out)
    ensures CaughtAt(Grown(files, h.inode, chunk), h, since, out)
  {
    var g := h.inode;
    LinesUpToSame(files, Grown(files, g, chunk), since, g);
    OwesAppend(LinesUpTo(files, since, g), files[g], From(since, g), out, h.offset, chunk);
  }

  /** A newer generation written to or created. */
  lemma CaughtOther(files: seq<string>, h: Handle, since: Handle, out: seq<string>, files': seq<string>)
    requires CaughtAt(files, h, since, out)
    requires h.inode < |files'| <= h.inode + 2
    requires forall i :: 0 <= i <= h.inode ==> files'[i] == files[i]
    ensures CaughtAt(files', h, since, out)
  {
    LinesUpToSame(files, files', since, h.inode);
  }

  /** What a poll of an open file comes to. */
  lemma PollInWorld(files: seq<string>, h: Handle)
    requires h.inode < |files| && h.offset <= |files[h.inode]|
    ensures
      var last := |files| - 1;
      var here := Lines(files[h.inode], h.offset);
      PollResult(DiskOf(files), Some(h)) ==
        if h.inode == last then (here, Some(Handle(last, End(files[last], h.offset))))
        else (here + Lines(files[last], 0), Some(Handle(last, End(files[last], 0))))
  {
  }

  lemma CaughtPollHere(files: seq<string>, h: Handle, since: Handle, out: seq<string>)
    requires CaughtAt(files, h, since, out) && h.inode == |files| - 1
    ensures
      var out' := out + Lines(files[h.inode], h.offset);
      && CaughtAt(files, Handle(h.inode, End(files[h.inode], h.offset)), since, out')
      && out' == LinesUpTo(files, since, |files|)
  {
    OwesRead(LinesUpTo(files, since, h.inode), files[h.inode], From(since, h.inode), out, h.offset);
  }

  lemma CaughtPollRotated(files: seq<string>, h: Handle, since: Handle, out: seq<string>)
    requires CaughtAt(files, h, since, out) && h.inode == |files| - 2
    ensures
      var last := |files| - 1;
      var out' := out + (Lines(files[h.inode], h.offset) + Lines(files[last], 0));
      && CaughtAt(files, Handle(last, End(files[last], 0)), since, out')
      && out' == LinesUpTo(files, since, |files|)
  {
    var last := |files| - 1;
    OwesRead(LinesUpTo(files, since, h.inode), files[h.inode], From(since, h.inode), out, h.offset);
    ConcatAssoc(out, Lines(files[h.inode], h.offset), Lines(files[last], 0));
    OwesNew(LinesUpTo(files, since, last), files[last]);
  }

  lemma CaughtPoll(w: World)
    requires Caught(w) && w.since.Some?
    ensures Caught(Polled(w)) && Polled(w).since == w.since
    ensures Polled(w).out == LinesUpTo(w.files, w.since.value, |w.files|)
  {
    PollInWorld(w.files, w.place.value);
    if w.place.value.inode == |w.files| - 1 {
      CaughtPollHere(w.files, w.place.value, w.since.value, w.out);
    } else {
      CaughtPollRotated(w.files, w.place.value, w.since.value, w.out);
    }
  }

  /** The first poll that finds the file opens it at its end and returns nothing. */
  lemma FirstPoll(w: World)
    requires w.place.None? && w.since.None? && w.out == []
    ensures Caught(Polled(w)) && Polled(w).out == [] && Polled(w).files == w.files
    ensures Polled(w).place == Polled(w).since == if w.files == [] then None else Some(EndOfNewest(w.files))
  {
    if w.files != [] {
      var end := EndOfNewest(w.files);
      assert Lines(w.files[end.inode], end.offset) == [];
      assert LinesUpTo(w.files, end, end.inode) == [];
    }
  }

  lemma CaughtWrite(w: World, chunk: string)
    requires Caught(w) && w.files != []
    ensures Caught(w.(files := Grown(w.files, |w.files| - 1, chunk)))
  {
    if w.since.Some? {
      if w.place.value.inode == |w.files| - 1 {
        CaughtAppend(w.files, w.place.value, w.since.value, w.out, chunk);
      } else {
        CaughtOther(w.files, w.place.value, w.since.value, w.out, Grown(w.files, |w.files| - 1, chunk));
      }
    }
  }

  lemma CaughtStep(w: World, e: Event)
    requires Caught(w) && Allowed(w, e)
    ensures Caught(NextWorld(w, e))
    ensures w.since.Some? ==> NextWorld(w, e).since == w.since
  {
    match e
    case Write(chunk) => CaughtWrite(w, chunk);
    case WriteOld(chunk) => CaughtAppend(w.files, w.place.value, w.since.value, w.out, chunk);
    case Rotate =>
      if w.since.Some? {
        CaughtOther(w.files, w.place.value, w.since.value, w.out, w.files + [""]);
      }
    case Poll =>
      if w.since.Some? {
        CaughtPoll(w);
      } else {
        FirstPoll(w);
      }
  }

  lemma {:induction false} CaughtRun(w: World, run: seq<Event>)
    requires Caught(w) && IsRun(w, run)
    ensures Caught(After(w, run))
    ensures w.since.Some? ==> After(w, run).since == w.since
    decreases |run|
  {
    if run != [] {
      CaughtStep(w, run[0]);
      CaughtRun(NextWorld(w, run[0]), run[1..]);
    }
  }

  /** A watcher that has not polled yet, with the file already there or not. */
  function Fresh(files: seq<string>): World {
    World(files, None, None, [])
  }

  /** However the text was cut into chunks, and whenever it was polled: after a poll, the lines
      returned in all are those of the text after the file's length at the first poll that found
      it, generation by generation, each once and in order; before that poll there are none. */
  lemma TailingIsIndependentOfChunks(files: seq<string>, run: seq<Event>)
    requires IsRun(Fresh(files), run)
    ensures
      var w := After(Fresh(files), run);
      && InPlace(w)
      && if w.since.None? then w.out == [] && Polled(w).out == []
         else Polled(w).out == LinesUpTo(w.files, w.since.value, |w.files|)
  {
    CaughtRun(Fresh(files), run);
    var w := After(Fresh(files), run);
    if w.since.Some? {
      CaughtPoll(w);
    } else {
      FirstPoll(w);
    }
  }

  /** The same told from the first poll that finds the file: it returns nothing, and from then on
      come the lines after the end that it found. */
  lemma TailingFromTheFirstPoll(files: seq<string>, before: seq<Event>, after: seq<Event>)
    requires IsRun(Fresh(files), before)
    requires After(Fresh(files), before).place.None? && After(Fresh(files), before).files != []
    requires IsRun(Polled(After(Fresh(files), before)), after)
    ensures
      var w := After(Fresh(files), before);
      var end := After(Polled(w), after);
      var last := |w.files| - 1;
      && Polled(w).out == []
      && InPlace(end)
      && Polled(end).out == LinesUpTo(end.files, Handle(last, |w.files[last]|), |end.files|)
  {
    var w := After(Fresh(files), before);
    CaughtRun(Fresh(files), before);
    FirstPoll(w);
    CaughtRun(Polled(w), after);
    CaughtPoll(After(Polled(w), after));
  }

  /** The watcher right after the poll that has found the file. */
  function Opened(content: string): World {
    Polled(Fresh([content]))
  }

  lemma OpenedAtTheEnd(content: string)
    ensures Caught(Opened(content)) && Opened(content).out == []
    ensures Opened(content).since == Opened(content).place == Some(Handle(0, |content|))
  {
    FirstPoll(Fresh([content]));
  }

  /** One file without rotation: exactly the newline-terminated lines after the offset at which
      it was opened, and the next read starts just past the last newline. */
  lemma TailingOneFile(content: string, run: seq<Event>)
    requires IsRun(Opened(content), run) && |After(Opened(content), run).files| == 1
    ensures
      var w := After(Opened(content), run);
      && InPlace(w)
      && Polled(w).out == Lines(w.files[0], |content|)
      && Polled(w).place == Some(Handle(0, End(w.files[0], |content|)))
  {
    var w := After(Opened(content), run);
    OpenedAtTheEnd(content);
    CaughtRun(Opened(content), run);
    CaughtPoll(w);
    PollInWorld(w.files, w.place.value);
    assert LinesUpTo(w.files, w.since.value, 0) == [];
  }

  /** One rotation: the rest of the old file's complete lines, then the new file's. */
  lemma TailingOverOneRotation(content: string, run: seq<Event>)
    requires IsRun(Opened(content), run) && |After(Opened(content), run).files| == 2
    ensures
      var w := After(Opened(content), run);
      && InPlace(w)
      && Polled(w).out == Lines(w.files[0], |content|) + Lines(w.files[1], 0)
  {
    var w := After(Opened(content), run);
    OpenedAtTheEnd(content);
    CaughtRun(Opened(content), run);
    CaughtPoll(w);
    assert LinesUpTo(w.files, w.since.value, 0) == [];
    assert LinesUpTo(w.files, w.since.value, 1) == Lines(w.files[0], |content|);
  }
}
