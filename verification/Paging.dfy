/** The paged List RPCs of pkg/hostpath/controllerserver.go and what following their tokens yields. */
module Paging {
  import opened Common
  import opened Strings
  import opened Paths

  /** `Panic` is Go's slice bounds failure. */
  datatype Reply<+T> =
    | Page(entries: seq<T>, next: string)
    | Aborted
    | InvalidArgument
    | Panic

  function Min(a: int, b: int): int {
    if a < b then a else b
  }

  /** The end of a page, after maxEntries was resolved and clipped to the list. */
  function PageEnd(n: nat, start: int, maxEntries: int): int {
    Min(start + (if maxEntries == 0 then n else maxEntries), n)
  }

  /** What is ever shown of n entries in pages of m: all but the last one when a page ends just before it. */
  function Shown(n: nat, m: nat): (r: nat)
    ensures r <= n
  {
    if n > 1 && m > 0 && (n - 1) % m == 0 then n - 1 else n
  }

  lemma ModUnique(x: int, m: int, q: int, r: int)
    requires m > 0 && x == q * m + r && 0 <= r < m
    ensures x % m == r
  {
    var d := q - x / m;
    assert d * m == x % m - r;
    assert d >= 1 ==> d * m >= m;
    assert d <= -1 ==> d * m <= -m;
  }

  lemma ModShift(a: nat, m: nat, d: nat)
    requires m > 0 && a % m == 0 && d <= m
    ensures (a + d) % m == if d == m then 0 else d
  {
    var q := a / m;
    assert a == q * m;
    assert (q + 1) * m == q * m + m;
    ModUnique(a + d, m, if d == m then q + 1 else q, if d == m then 0 else d);
  }

  // ---------------------------------------------------------------- ListSnapshots

  /** The zero-based index a token stands for; -1 for the number 0 not written as "0". */
  function Start(token: string): Option<int> {
    if token == "" || token == "0" then Some(0)
    else if Parse(token).None? then None
    else Some(Parse(token).value - 1)
  }

  /** ListSnapshots on the collected snapshots. */
  function SnapshotPage<T>(list: seq<T>, token: string, maxEntries: int): Reply<T> {
    if list == [] then if token != "" then Aborted else Page([], "")
    else if Start(token).None? then Aborted
    else
      var start := Start(token).value;
      var end := PageEnd(|list|, start, maxEntries);
      if !(0 <= start <= end) then Panic
      else Page(list[start..end], if end < |list| - 1 then Format(end + 1) else "")
  }

  /** The loop that appends one response entry per element of the slice. */
  method Collect<T>(list: seq<T>, start: int, end: int) returns (entries: seq<T>)
    requires 0 <= start <= end <= |list|
    ensures entries == list[start..end]
  {
    entries := [];
    for i := start to end
      invariant entries == list[start..i]
    {
      entries := entries + [list[i]];
    }
  }

  lemma OneParses()
    ensures Parse("1") == Some(1)
  {
    assert Format(1) == "1";
    TokenRoundTrip(1);
  }

  /** The RPC as written: the request's token is overwritten and entries are appended one by one. */
  method ListSnapshots<T>(list: seq<T>, startingToken: string, maxEntries: int) returns (r: Reply<T>)
    ensures r == SnapshotPage(list, startingToken, maxEntries)
  {
    if |list| > 0 {
      var token := startingToken;
      if token == "" || token == "0" {
        token := "1";
        OneParses();
      }
      var maxLength: int := maxEntries;
      if maxLength == 0 {
        maxLength := |list|;
      }
      var parsed := Parse(token);
      if parsed.None? {
        return Aborted;
      }
      var start := parsed.value as int - 1;
      var end: int := start + maxLength;
      if end > |list| {
        end := |list|;
      }
      if !(0 <= start <= end) {
        return Panic;
      }
      var entries := Collect(list, start, end);
      var next := "";
      if end < |list| - 1 {
        next := Format(end + 1);
      }
      return Page(entries, next);
    }
    if startingToken != "" {
      return Aborted;
    }
    return Page([], "");
  }

  /**
   Every answer of ListSnapshots by its request: a token that is no number, or any token without snapshots, is
   Aborted; a number outside the list panics; otherwise the page has the entries from that number on.
   */
  lemma SnapshotAnswersIff<T>(list: seq<T>, token: string, maxEntries: nat)
    ensures var r := SnapshotPage(list, token, maxEntries);
            var k := if token == "" || token == "0" then Some(1) else Parse(token);
            && (r == Aborted <==> if list == [] then token != "" else k.None?)
            && (r == Panic <==> list != [] && k.Some? && !(1 <= k.value <= |list| + 1))
            && (r.Page? && list != [] ==>
                && 1 <= k.value <= |list| + 1
                && r.entries == list[k.value - 1..if maxEntries == 0 then |list|
                                                  else Min(k.value - 1 + maxEntries, |list|)])
  {
  }

  /** An issued token is read back as the index right after the page, so paging always moves on. */
  lemma SnapshotTokenResumes<T>(list: seq<T>, token: string, maxEntries: nat)
    requires |list| < LIMIT
    ensures var r := SnapshotPage(list, token, maxEntries);
            r.Page? && r.next != "" ==>
              && Start(token).Some?
              && Start(r.next) == Some(Start(token).value + |r.entries|)
              && Start(token).value < Start(r.next).value < |list| - 1
  {
    var r := SnapshotPage(list, token, maxEntries);
    if r.Page? && r.next != "" {
      TokenRoundTrip(PageEnd(|list|, Start(token).value, maxEntries) + 1);
    }
  }

  /** The replies to a client that follows tokens until none is issued. */
  function FollowSnapshots<T>(list: seq<T>, token: string, maxEntries: nat): seq<Reply<T>>
    requires |list| < LIMIT
    decreases if Start(token).Some? then |list| - Start(token).value else 0
  {
    var r := SnapshotPage(list, token, maxEntries);
    SnapshotTokenResumes(list, token, maxEntries);
    if r.Page? && r.next != "" then [r] + FollowSnapshots(list, r.next, maxEntries) else [r]
  }

  /** All entries of a sequence of replies, in order. */
  function Entries<T>(replies: seq<Reply<T>>): seq<T> {
    if replies == [] then []
    else (if replies[0].Page? then replies[0].entries else []) + Entries(replies[1..])
  }

  ghost predicate AllPages<T>(replies: seq<Reply<T>>) {
    forall i | 0 <= i < |replies| :: replies[i].Page?
  }

  /** Every page but the last is full. */
  ghost predicate FullUpToLast<T>(replies: seq<Reply<T>>, m: nat) {
    forall i | 0 <= i < |replies| - 1 :: replies[i].Page? && |replies[i].entries| == m
  }

  /** Where the last page ends when paging goes on from `start` while the driver issues tokens. */
  function LastEnd(n: nat, m: nat, start: nat): (r: nat)
    requires m > 0 && start <= n
    ensures start <= r <= n
    decreases n - start
  {
    var end := PageEnd(n, start, m);
    if end < n - 1 then LastEnd(n, m, end) else end
  }

  /** The test for another page and the divisibility condition agree on where the list ends. */
  lemma {:induction false} LastEndIsShown(n: nat, m: nat, start: nat)
    requires m > 0 && start % m == 0 && (start < n - 1 || (start == 0 && n == 1))
    ensures LastEnd(n, m, start) == Shown(n, m)
    decreases n - start
  {
    ModShift(start, m, m);
    if start + m < n - 1 {
      LastEndIsShown(n, m, start + m);
    } else if start < n - 1 {
      ModShift(start, m, n - 1 - start);
    }
  }

  ghost predicate SnapshotsFrom<T>(list: seq<T>, m: nat, start: nat, shown: nat, replies: seq<Reply<T>>) {
    && AllPages(replies) && FullUpToLast(replies, m)
    && start <= shown <= |list| && Entries(replies) == list[start..shown]
  }

  lemma LastSnapshotPage<T>(list: seq<T>, m: nat, start: nat, shown: nat, r: Reply<T>)
    requires start <= shown <= |list| && r == Page(list[start..shown], "")
    ensures SnapshotsFrom(list, m, start, shown, [r])
  {
    assert Entries([r]) == r.entries + Entries([r][1..]);
  }

  lemma SnapshotGoesOn<T>(list: seq<T>, token: string, m: nat, start: nat)
    requires |list| < LIMIT && m > 0 && Start(token) == Some(start) && start + m < |list| - 1
    ensures var next := Format(start + m + 1);
            && SnapshotPage(list, token, m) == Page(list[start..start + m], next)
            && next != "" && Start(next) == Some(start + m)
  {
    FormatParses(start + m + 1);
    SnapshotTokenResumes(list, token, m);
  }

  lemma SnapshotsUnfold<T>(list: seq<T>, token: string, m: nat, r: Reply<T>, rest: seq<Reply<T>>)
    requires |list| < LIMIT && SnapshotPage(list, token, m) == r && r.Page? && r.next != ""
    requires rest == FollowSnapshots(list, r.next, m)
    ensures FollowSnapshots(list, token, m) == [r] + rest
  {
  }

  /** From a page boundary on, the remaining pages show exactly the rest of what is ever shown. */
  lemma {:induction false} FollowFrom<T>(list: seq<T>, token: string, m: nat, start: nat)
    returns (replies: seq<Reply<T>>)
    requires |list| < LIMIT && m > 0 && Start(token) == Some(start) && start < |list|
    ensures replies == FollowSnapshots(list, token, m)
    ensures SnapshotsFrom(list, m, start, LastEnd(|list|, m, start), replies)
    decreases |list| - start
  {
    if start + m < |list| - 1 {
      SnapshotGoesOn(list, token, m, start);
      var r := Page(list[start..start + m], Format(start + m + 1));
      var rest := FollowFrom(list, r.next, m, start + m);
      SnapshotsUnfold(list, token, m, r, rest);
      OneMoreSnapshotPage(list, m, start, r, rest);
      replies := [r] + rest;
    } else {
      var end := PageEnd(|list|, start, m);
      LastSnapshotPage(list, m, start, end, Page(list[start..end], ""));
      replies := [Page(list[start..end], "")];
    }
  }

  lemma OneMoreSnapshotPage<T>(list: seq<T>, m: nat, start: nat, r: Reply<T>, rest: seq<Reply<T>>)
    requires m > 0 && start + m < |list| - 1 && r.Page? && r.entries == list[start..start + m]
    requires SnapshotsFrom(list, m, start + m, LastEnd(|list|, m, start + m), rest)
    ensures SnapshotsFrom(list, m, start, LastEnd(|list|, m, start), [r] + rest)
  {
    var end, shown := start + m, LastEnd(|list|, m, start + m);
    assert LastEnd(|list|, m, start) == shown;
    Prepended(r, rest, m);
    assert list[start..end] + list[end..shown] == list[start..shown];
  }

  lemma Prepended<T>(r: Reply<T>, rest: seq<Reply<T>>, m: nat)
    requires r.Page? && |r.entries| == m && AllPages(rest) && FullUpToLast(rest, m)
    ensures AllPages([r] + rest) && FullUpToLast([r] + rest, m)
    ensures Entries([r] + rest) == r.entries + Entries(rest)
  {
    var all := [r] + rest;
    assert all[1..] == rest;
    forall i | 0 <= i < |all| - 1
      ensures all[i].Page? && |all[i].entries| == m
    {
      assert i > 0 ==> all[i] == rest[i - 1];
    }
  }

  /**
   Following the tokens of ListSnapshots terminates without an error, with contiguous pages in order.
   Together they are the whole list, except that the last snapshot is never shown exactly when there
   are at least two and the page size divides their number minus one.
   */
  lemma SnapshotCoverage<T>(list: seq<T>, m: nat)
    requires |list| < LIMIT
    ensures AllPages(FollowSnapshots(list, "", m)) && FullUpToLast(FollowSnapshots(list, "", m), m)
    ensures Entries(FollowSnapshots(list, "", m)) == list[..Shown(|list|, m)]
    ensures Entries(FollowSnapshots(list, "", m)) == list <==> !(|list| > 1 && m > 0 && (|list| - 1) % m == 0)
  {
    if list == [] || m == 0 {
      var r := SnapshotPage(list, "", m);
      assert FollowSnapshots(list, "", m) == [r];
      assert Entries([r]) == r.entries + Entries([r][1..]);
      assert r.entries == list;
    } else {
      var replies := FollowFrom(list, "", m, 0);
      LastEndIsShown(|list|, m, 0);
    }
    assert |list[..Shown(|list|, m)]| == Shown(|list|, m);
  }

  // ---------------------------------------------------------------- ListVolumes

  /** The ids of the volumes in these directories. */
  function Names(dirs: seq<string>): (names: seq<string>)
    ensures |names| == |dirs| && forall i | 0 <= i < |dirs| :: names[i] == Base(dirs[i])
  {
    seq(|dirs|, i requires 0 <= i < |dirs| => Base(dirs[i]))
  }

  /** The first position from `from` on with this name, -1 if there is none. */
  function IndexFrom(value: string, names: seq<string>, from: nat): (r: int)
    requires from <= |names|
    ensures r == -1 || from <= r < |names|
    ensures r >= 0 ==> names[r] == value
    ensures forall i | from <= i < (if r >= 0 then r else |names|) :: names[i] != value
    decreases |names| - from
  {
    if from == |names| then -1
    else if names[from] == value then from
    else IndexFrom(value, names, from + 1)
  }

  /** The first position with this name, -1 if there is none. */
  function IndexOf(value: string, names: seq<string>): int {
    IndexFrom(value, names, 0)
  }

  method IndexOfStartingToken(value: string, list: seq<string>) returns (r: int)
    ensures -1 <= r < |list|
    ensures r >= 0 ==> Base(list[r]) == value
    ensures forall i | 0 <= i < (if r >= 0 then r else |list|) :: Base(list[i]) != value
    ensures r == IndexOf(value, Names(list))
  {
    for i := 0 to |list|
      invariant forall j | 0 <= j < i :: Base(list[j]) != value
    {
      if Base(list[i]) == value {
        FoundFirst(value, Names(list), i);
        return i;
      }
    }
    assert forall i | 0 <= i < |list| :: Names(list)[i] != value;
    return -1;
  }

  lemma FoundFirst(value: string, names: seq<string>, i: nat)
    requires i < |names| && names[i] == value && forall j | 0 <= j < i :: names[j] != value
    ensures IndexOf(value, names) == i
  {
  }

  /** The page from position `start` on; the next token is the name of the volume after it. */
  function VolumesAt(dirs: seq<string>, names: seq<string>, start: int, maxEntries: nat): Reply<string>
    requires |names| == |dirs| && 0 <= start < |dirs|
  {
    var end := PageEnd(|dirs|, start, maxEntries);
    Page(dirs[start..end], if end < |dirs| - 1 then names[end] else "")
  }

  /** ListVolumes on the sorted volume directories and their names. */
  function VolumePage(dirs: seq<string>, names: seq<string>, token: string, maxEntries: int): Reply<string>
    requires |names| == |dirs|
  {
    if maxEntries < 0 then InvalidArgument
    else if token != "" && Parse(token).None? then Aborted
    else if dirs == [] then if token != "" then Aborted else Page([], "")
    else
      var start := IndexOf(if token == "" then names[0] else token, names);
      if start == -1 then InvalidArgument else VolumesAt(dirs, names, start, maxEntries)
  }

  method CollectVolumes(dirs: seq<string>, start: int, maxEntries: nat) returns (r: Reply<string>)
    requires 0 <= start < |dirs|
    ensures r == VolumesAt(dirs, Names(dirs), start, maxEntries)
  {
    var maxLength := maxEntries;
    if maxLength == 0 {
      maxLength := |dirs|;
    }
    var end := start + maxLength;
    if end > |dirs| {
      end := |dirs|;
    }
    var entries := Collect(dirs, start, end);
    var next := "";
    if end < |dirs| - 1 {
      next := Base(dirs[end]);
    }
    return Page(entries, next);
  }

  method ListVolumes(dirs: seq<string>, startingToken: string, maxEntries: int) returns (r: Reply<string>)
    ensures r == VolumePage(dirs, Names(dirs), startingToken, maxEntries)
  {
    if maxEntries < 0 {
      return InvalidArgument;
    }
    if startingToken != "" && Parse(startingToken).None? {
      return Aborted;
    }
    if |dirs| > 0 {
      var token := startingToken;
      if token == "" {
        token := Base(dirs[0]);
      }
      var start := IndexOfStartingToken(token, dirs);
      if start == -1 {
        return InvalidArgument;
      }
      r := CollectVolumes(dirs, start, maxEntries);
      return;
    }
    if startingToken != "" {
      return Aborted;
    }
    return Page([], "");
  }

  /** No volume before position `i` has the same name, in whatever pool. */
  ghost predicate First(names: seq<string>, i: nat)
    requires i < |names|
  {
    forall j | 0 <= j < i :: names[j] != names[i]
  }

  /**
   Every answer of ListVolumes by its request: a token that is no number, or any token without volumes, is
   Aborted; a number that names no volume, as when the volume was deleted meanwhile, is InvalidArgument like a
   negative page size; otherwise the page begins with the first volume of that name.
   */
  lemma VolumeAnswersIff(dirs: seq<string>, token: string, maxEntries: int)
    ensures var names, r := Names(dirs), VolumePage(dirs, Names(dirs), token, maxEntries);
            && (r == InvalidArgument <==>
                maxEntries < 0 || (token != "" && Parse(token).Some? && dirs != [] && token !in names))
            && (r == Aborted <==> maxEntries >= 0 && token != "" && (Parse(token).None? || dirs == []))
            && (r.Page? && dirs != [] ==>
                exists i :: 0 <= i < |dirs| && First(names, i) && (if token == "" then i == 0 else names[i] == token)
                            && var end := if maxEntries == 0 then |dirs| else Min(i + maxEntries, |dirs|);
                               && r.entries == dirs[i..end]
                               && r.next == if |dirs| - end > 1 then names[end] else "")
  {
    var names, r := Names(dirs), VolumePage(dirs, Names(dirs), token, maxEntries);
    if r.Page? && dirs != [] {
      var i := IndexOf(if token == "" then names[0] else token, names);
      assert First(names, i);
    }
  }

  /** A listing of volume directories: every one has a name, and none is listed twice. */
  ghost predicate Listing(dirs: seq<string>, names: seq<string>) {
    && |names| == |dirs|
    && (forall i | 0 <= i < |names| :: names[i] != "")
    && (forall i, j | 0 <= i < j < |dirs| :: dirs[i] != dirs[j])
  }

  /** The token issued for position `end` leads back to it exactly when no earlier volume has that name. */
  lemma TokenResumesIff(names: seq<string>, end: nat)
    requires end < |names|
    ensures IndexOf(names[end], names) == end <==> First(names, end)
    ensures 0 <= IndexOf(names[end], names) <= end
  {
    if First(names, end) {
      FoundFirst(names[end], names, end);
    }
  }

  /** What a client has seen that began with `token` and follows tokens as long as it gets pages with one. */
  ghost predicate Transcript(dirs: seq<string>, names: seq<string>, token: string, m: nat, replies: seq<Reply<string>>)
    requires |names| == |dirs|
    decreases |replies|
  {
    replies != [] ==>
      && replies[0] == VolumePage(dirs, names, token, m)
      && if replies[0].Page? && replies[0].next != ""
         then Transcript(dirs, names, replies[0].next, m, replies[1..])
         else |replies| == 1
  }

  /** Of two transcripts one begins with the other. */
  lemma {:induction false} TranscriptsAgree(dirs: seq<string>, names: seq<string>, token: string, m: nat,
                                            a: seq<Reply<string>>, b: seq<Reply<string>>)
    requires |names| == |dirs| && |a| <= |b|
    requires Transcript(dirs, names, token, m, a) && Transcript(dirs, names, token, m, b)
    ensures a == b[..|a|]
    decreases |a|
  {
    if a != [] && a[0].Page? && a[0].next != "" {
      TranscriptsAgree(dirs, names, a[0].next, m, a[1..], b[1..]);
      assert a == [a[0]] + a[1..] && b[..|a|] == [b[0]] + b[1..][..|a| - 1];
    }
  }

  /** The replies are the page at `start` and so on, each page beginning where the one before ended. */
  ghost predicate Contiguous(dirs: seq<string>, names: seq<string>, m: nat, start: nat, replies: seq<Reply<string>>)
    requires |names| == |dirs|
    decreases |replies|
  {
    && replies != [] && start < |dirs| && replies[0] == VolumesAt(dirs, names, start, m)
    && if start + m >= |dirs| - 1 then |replies| == 1 else Contiguous(dirs, names, m, start + m, replies[1..])
  }

  /** A name that works as a token for its position: it is read as a 32-bit decimal and found nowhere earlier. */
  ghost predicate IsToken(names: seq<string>, i: nat)
    requires i < |names|
  {
    Parse(names[i]).Some? && First(names, i)
  }

  /** Every position behind `start` for which a token is issued has such a name. */
  ghost predicate TokensWork(names: seq<string>, m: nat, start: nat)
    requires m > 0
  {
    forall i | start < i < |names| - 1 && i % m == 0 :: IsToken(names, i)
  }

  /** The same along the pages. */
  ghost predicate PagesWork(names: seq<string>, m: nat, start: nat)
    requires m > 0
    decreases |names| - start
  {
    start + m < |names| - 1 ==> IsToken(names, start + m) && PagesWork(names, m, start + m)
  }

  lemma {:induction false} PagesWorkIff(names: seq<string>, m: nat, start: nat)
    requires m > 0 && start % m == 0
    ensures PagesWork(names, m, start) <==> TokensWork(names, m, start)
    decreases |names| - start
  {
    ModShift(start, m, m);
    forall i | start < i < start + m
      ensures i % m != 0
    {
      ModShift(start, m, i - start);
    }
    if start + m < |names| - 1 {
      PagesWorkIff(names, m, start + m);
    }
  }

  lemma FirstVolumePage(dirs: seq<string>, names: seq<string>, m: nat)
    requires |names| == |dirs| && dirs != []
    ensures VolumePage(dirs, names, "", m) == VolumesAt(dirs, names, 0, m)
  {
  }

  /** Pages that start at different positions differ. */
  lemma PagesDiffer(dirs: seq<string>, names: seq<string>, m: nat, i: nat, j: nat)
    requires Listing(dirs, names) && m > 0 && i < |dirs| && j < |dirs| && i != j
    ensures VolumesAt(dirs, names, i, m) != VolumesAt(dirs, names, j, m)
  {
    assert VolumesAt(dirs, names, i, m).entries[0] == dirs[i];
    assert VolumesAt(dirs, names, j, m).entries[0] == dirs[j];
  }

  /** A name leads to the page at its own position exactly if it works as a token. */
  lemma TokenWorksIff(dirs: seq<string>, names: seq<string>, m: nat, end: nat)
    requires Listing(dirs, names) && m > 0 && end < |dirs|
    ensures VolumePage(dirs, names, names[end], m) == VolumesAt(dirs, names, end, m) <==> IsToken(names, end)
  {
    TokenResumesIff(names, end);
    var j := IndexOf(names[end], names);
    if j != end {
      PagesDiffer(dirs, names, m, j, end);
    }
  }

  lemma {:induction false} ContiguousNeedsTokens(dirs: seq<string>, names: seq<string>, token: string, m: nat,
                                                 start: nat, replies: seq<Reply<string>>)
    requires Listing(dirs, names) && m > 0
    requires Transcript(dirs, names, token, m, replies) && Contiguous(dirs, names, m, start, replies)
    ensures PagesWork(names, m, start)
    decreases |replies|
  {
    var end := start + m;
    if end < |dirs| - 1 {
      TokenWorksIff(dirs, names, m, end);
      ContiguousNeedsTokens(dirs, names, names[end], m, end, replies[1..]);
    }
  }

  lemma TranscriptGrows(dirs: seq<string>, names: seq<string>, token: string, m: nat, all: seq<Reply<string>>)
    requires |names| == |dirs| && all != [] && all[0] == VolumePage(dirs, names, token, m)
    requires all[0].Page? && all[0].next != "" && Transcript(dirs, names, all[0].next, m, all[1..])
    ensures Transcript(dirs, names, token, m, all)
  {
  }

  lemma ContiguousGrows(dirs: seq<string>, names: seq<string>, m: nat, start: nat, all: seq<Reply<string>>)
    requires |names| == |dirs| && start + m < |dirs| - 1
    requires all != [] && all[0] == VolumesAt(dirs, names, start, m)
    requires Contiguous(dirs, names, m, start + m, all[1..])
    ensures Contiguous(dirs, names, m, start, all)
  {
  }

  lemma LastPageEnds(dirs: seq<string>, names: seq<string>, token: string, m: nat, start: nat)
    requires |names| == |dirs| && start < |dirs| && m > 0 && start + m >= |dirs| - 1
    requires VolumePage(dirs, names, token, m) == VolumesAt(dirs, names, start, m)
    ensures Transcript(dirs, names, token, m, [VolumesAt(dirs, names, start, m)])
    ensures Contiguous(dirs, names, m, start, [VolumesAt(dirs, names, start, m)])
  {
  }

  lemma {:induction false} TokensGiveContiguous(dirs: seq<string>, names: seq<string>, token: string, m: nat,
                                                start: nat) returns (replies: seq<Reply<string>>)
    requires Listing(dirs, names) && m > 0 && start < |dirs| && PagesWork(names, m, start)
    requires VolumePage(dirs, names, token, m) == VolumesAt(dirs, names, start, m)
    ensures Transcript(dirs, names, token, m, replies) && Contiguous(dirs, names, m, start, replies)
    decreases |dirs| - start
  {
    var r, end := VolumesAt(dirs, names, start, m), start + m;
    if end >= |dirs| - 1 {
      LastPageEnds(dirs, names, token, m, start);
      replies := [r];
    } else {
      TokenWorksIff(dirs, names, m, end);
      var rest := TokensGiveContiguous(dirs, names, names[end], m, end);
      replies := [r] + rest;
      assert replies[1..] == rest;
      TranscriptGrows(dirs, names, token, m, replies);
      ContiguousGrows(dirs, names, m, start, replies);
    }
  }

  lemma LastVolumePage(r: Reply<string>)
    requires r.Page?
    ensures Entries([r]) == r.entries
  {
    assert Entries([r]) == r.entries + Entries([r][1..]);
  }

  lemma OneMoreVolumePage(dirs: seq<string>, start: nat, end: nat, shown: nat, r: Reply<string>,
                          rest: seq<Reply<string>>, m: nat)
    requires start <= end <= shown <= |dirs| && r.Page? && r.entries == dirs[start..end] && end - start == m
    requires AllPages(rest) && FullUpToLast(rest, m) && Entries(rest) == dirs[end..shown]
    ensures AllPages([r] + rest) && FullUpToLast([r] + rest, m) && Entries([r] + rest) == dirs[start..shown]
  {
    Prepended(r, rest, m);
    assert dirs[start..end] + dirs[end..shown] == dirs[start..shown];
  }

  /** The last reply is a page without a further token. */
  predicate ToldTheEnd(replies: seq<Reply<string>>) {
    replies != [] && replies[|replies| - 1].Page? && replies[|replies| - 1].next == ""
  }

  /** Contiguous pages are all full but the last one, and together they are the listing up to where it is shown. */
  lemma {:induction false} ContiguousCovers(dirs: seq<string>, names: seq<string>, m: nat, start: nat,
                                            replies: seq<Reply<string>>)
    requires |names| == |dirs| && m > 0 && Contiguous(dirs, names, m, start, replies)
    ensures AllPages(replies) && FullUpToLast(replies, m) && ToldTheEnd(replies)
    ensures Entries(replies) == dirs[start..LastEnd(|dirs|, m, start)]
    decreases |replies|
  {
    var end := PageEnd(|dirs|, start, m);
    if end >= |dirs| - 1 {
      assert replies == [replies[0]];
      LastVolumePage(replies[0]);
    } else {
      ContiguousCovers(dirs, names, m, end, replies[1..]);
      assert replies == [replies[0]] + replies[1..];
      OneMoreVolumePage(dirs, start, end, LastEnd(|dirs|, m, end), replies[0], replies[1..], m);
    }
  }

  /** The client is told that there is no more after contiguous pages from the first volume on. */
  ghost predicate GetsListing(dirs: seq<string>, m: nat) {
    exists replies :: Transcript(dirs, Names(dirs), "", m, replies) && Contiguous(dirs, Names(dirs), m, 0, replies)
                      && ToldTheEnd(replies)
  }

  /**
   A client that follows the tokens of ListVolumes gets the listing in contiguous pages exactly when every
   position that is a multiple of the page size, short of the last entry, has a name that parses as a 32-bit
   decimal number and that no earlier directory has.
   */
  lemma GetsListingIff(dirs: seq<string>, m: nat)
    requires Listing(dirs, Names(dirs)) && m > 0 && dirs != []
    ensures GetsListing(dirs, m) <==> TokensWork(Names(dirs), m, 0)
  {
    var names := Names(dirs);
    PagesWorkIff(names, m, 0);
    if replies :| Transcript(dirs, names, "", m, replies) && Contiguous(dirs, names, m, 0, replies) {
      ContiguousNeedsTokens(dirs, names, "", m, 0, replies);
    }
    if TokensWork(names, m, 0) {
      FirstVolumePage(dirs, names, m);
      var replies := TokensGiveContiguous(dirs, names, "", m, 0);
      ContiguousCovers(dirs, names, m, 0, replies);
    }
  }

  /**
   Then every page but the last is full, and together they cover what ListSnapshots would. Without a page size,
   or without volumes, there is one page with everything.
   */
  lemma VolumeCoverage(dirs: seq<string>, m: nat, replies: seq<Reply<string>>)
    requires replies != [] && Transcript(dirs, Names(dirs), "", m, replies)
    requires m > 0 && dirs != [] ==> Contiguous(dirs, Names(dirs), m, 0, replies)
    ensures AllPages(replies) && FullUpToLast(replies, m) && ToldTheEnd(replies)
    ensures Entries(replies) == dirs[..Shown(|dirs|, m)]
  {
    if m > 0 && dirs != [] {
      ContiguousCovers(dirs, Names(dirs), m, 0, replies);
      LastEndIsShown(|dirs|, m, 0);
    } else {
      OnePageWithoutSize(dirs, m);
      assert replies == [Page(dirs, "")];
      LastVolumePage(replies[0]);
    }
  }

  lemma OnePageWithoutSize(dirs: seq<string>, m: nat)
    requires m == 0 || dirs == []
    ensures VolumePage(dirs, Names(dirs), "", m) == Page(dirs, "")
  {
    if dirs != [] {
      FirstVolumePage(dirs, Names(dirs), m);
      assert dirs[0..|dirs|] == dirs;
    }
  }

  /** The same page for every request. */
  function Repeated(r: Reply<string>, k: nat): seq<Reply<string>> {
    if k == 0 then [] else [r] + Repeated(r, k - 1)
  }

  /** If the volume after the first page has the name of the first volume, the client never gets past that page. */
  lemma {:induction false} SharedNameLoops(dirs: seq<string>, names: seq<string>, token: string, m: nat, k: nat)
    requires |names| == |dirs| && 0 < m < |dirs| - 1 && names[m] == names[0] && Parse(names[0]).Some?
    requires token == "" || token == names[0]
    ensures Transcript(dirs, names, token, m, Repeated(Page(dirs[..m], names[0]), k))
    decreases k
  {
    var r := Page(dirs[..m], names[0]);
    assert VolumePage(dirs, names, token, m) == VolumesAt(dirs, names, 0, m);
    assert dirs[0..m] == dirs[..m];
    if k > 0 {
      SharedNameLoops(dirs, names, names[0], m, k - 1);
      assert ([r] + Repeated(r, k - 1))[1..] == Repeated(r, k - 1);
    }
  }

  /** Volumes named after PVs never get past the first page: "pvc-..." is no number. */
  lemma PvcNamesStopAfterOnePage(dirs: seq<string>, m: nat)
    requires 0 < m < |dirs| - 1 && Base(dirs[m]) != "" && Base(dirs[m])[0] == 'p'
    ensures Transcript(dirs, Names(dirs), "", m, [Page(dirs[..m], Base(dirs[m])), Aborted])
  {
    var names := Names(dirs);
    var replies := [Page(dirs[..m], names[m]), Aborted];
    FirstVolumePage(dirs, names, m);
    assert dirs[0..m] == dirs[..m];
    NumberIsDigits(names[m]);
    assert names[m][0] in names[m];
    assert replies[1..] == [Aborted];
    assert Transcript(dirs, names, names[m], m, [Aborted]);
  }
}
