/**
 * The checkpoint file store of the Docker example
 * (airsafe-v2-targets-stream-examples/docker/main.py,
 * `PositionTokenProcessor`). The token directory is a map from file name
 * to file contents. A write goes to the staging name `token.0.txt`, is
 * renamed to `token.<time>.txt`, and then all but the five greatest
 * `token.*.txt` names are removed. A read returns the contents of the
 * greatest such name.
 */
module Checkpoint {
  import opened Wrappers
  import opened Lexicographic

  const StagingName: string := "token.0.txt"
  /** How many `token.*.txt` files a successful write leaves behind at most. */
  const KeptTokens: nat := 5

  type Directory = map<string, string>

  /** Names the pattern `token.*.txt` matches (the `*` may match nothing). */
  predicate IsTokenName(name: string)
  {
    |name| >= 10 && name[..6] == "token." && name[|name| - 4..] == ".txt"
  }

  /** `"token." + str(time.time()) + ".txt"`, for the rendered time `stamp`. */
  function TimestampedName(stamp: string): (name: string)
    ensures IsTokenName(name)
  {
    assert ("token." + stamp + ".txt")[..6] == "token.";
    assert ("token." + stamp + ".txt")[6 + |stamp|..] == ".txt";
    "token." + stamp + ".txt"
  }

  /** The staging name is itself a timestamped name, so the pattern matches it. */
  lemma StagingMatchesPattern()
    ensures StagingName == TimestampedName("0") && IsTokenName(StagingName)
  {
  }

  function TokenNames(files: Directory): (names: set<string>)
    ensures forall n :: n in names <==> n in files && IsTokenName(n)
  {
    set n | n in files && IsTokenName(n)
  }

  /** What `read_last_position_token` returns when no step fails: the contents of the greatest token name. */
  ghost function Latest(files: Directory): (r: Option<string>)
    ensures r.None? <==> TokenNames(files) == {}
  {
    var names := Listing(TokenNames(files));
    if |names| == 0 then None else Some(files[names[|names| - 1]])
  }

  /** `os.rename(from, to)`: the contents move to `to`, replacing any file there. */
  function Renamed(files: Directory, from: string, to: string): (r: Directory)
    requires from in files
    ensures to in r && r[to] == files[from]
    ensures from != to ==> from !in r
    ensures forall n :: n != from && n != to ==> (n in r <==> n in files) && (n in r ==> r[n] == files[n])
  {
    (files - {from})[to := files[from]]
  }

  /** The names a write removes: all token names but the five greatest, in increasing order. */
  ghost function Stale(files: Directory): seq<string>
  {
    var names := Listing(TokenNames(files));
    if |names| > KeptTokens then names[..|names| - KeptTokens] else []
  }

  function Without(files: Directory, names: seq<string>): Directory
  {
    files - set n | n in names
  }

  /** Where a write can raise; every exception is caught and logged, and the write ends there. */
  datatype Fault =
    | NoFault
    | OpenFails                // opening the staging file
    | WriteFails(written: nat) // writing, after `written` characters reached the file
    | RenameFails
    | RemoveFails(removed: nat) // removing a stale file, after `removed` removals

  function Prefix(token: string, n: nat): string
  {
    if n < |token| then token[..n] else token
  }

  /** The directory after `write_last_position_token(token)` at time `stamp`, given where it fails. */
  ghost function AfterWrite(files: Directory, token: string, stamp: string, fault: Fault): Directory
  {
    match fault
    case OpenFails => files
    case WriteFails(n) => files[StagingName := Prefix(token, n)]
    case RenameFails => files[StagingName := token]
    case _ =>
      var renamed := Renamed(files[StagingName := token], StagingName, TimestampedName(stamp));
      Without(renamed, Removed(Stale(renamed), fault))
  }

  /** The stale names actually removed: all of them, or those before the removal that fails. */
  function Removed(stale: seq<string>, fault: Fault): seq<string>
  {
    if fault.RemoveFails? && fault.removed < |stale| then stale[..fault.removed] else stale
  }

  lemma WithoutOneMore(files: Directory, names: seq<string>, i: nat)
    requires i < |names|
    ensures Without(files, names[..i + 1]) == Without(files, names[..i]) - {names[i]}
  {
    assert names[..i + 1] == names[..i] + [names[i]];
  }

  /** `PositionTokenProcessor` over the token directory it reads and writes. */
  class PositionTokenProcessor {
    var files: Directory

    constructor (files: Directory)
      ensures this.files == files
    {
      this.files := files;
    }

    /** `sorted(glob("token.*.txt"))`: the token names in increasing order. */
    method ListTokens() returns (names: seq<string>)
      ensures names == Listing(TokenNames(files))
    {
      var pending := set n | n in files && IsTokenName(n);
      names := [];
      while pending != {}
        invariant StrictlySorted(names)
        invariant pending <= TokenNames(files)
        invariant forall n :: n in names <==> n in TokenNames(files) && n !in pending
        decreases pending
      {
        var n :| n in pending;
        names := Insert(names, n);
        pending := pending - {n};
      }
      SortedUnique(names, Listing(TokenNames(files)));
    }

    /**
     * `read_last_position_token`: the contents of the greatest token name,
     * or `None` when there is none or opening it fails (`openFails`).
     */
    method ReadLastPositionToken(openFails: bool) returns (token: Option<string>)
      ensures token == if openFails then None else Latest(files)
    {
      var names := ListTokens();
      if |names| == 0 || openFails {
        return None;
      }
      return Some(files[names[|names| - 1]]);
    }

    /**
     * `write_last_position_token`: write the staging file, rename it to the
     * timestamped name, then remove all but the five greatest token names.
     */
    method WriteLastPositionToken(token: string, stamp: string, fault: Fault)
      modifies this
      ensures files == AfterWrite(old(files), token, stamp, fault)
    {
      if fault == OpenFails {
        return;
      }
      if fault.WriteFails? {
        files := files[StagingName := Prefix(token, fault.written)];
        return;
      }
      files := files[StagingName := token];
      if fault == RenameFails {
        return;
      }
      files := Renamed(files, StagingName, TimestampedName(stamp));
      ghost var renamed := files;
      var names := ListTokens();
      assert Stale(renamed) == if |names| > KeptTokens then names[..|names| - KeptTokens] else [];
      if |names| > KeptTokens {
        RemoveStale(names[..|names| - KeptTokens], fault);
      } else {
        assert files == Without(files, []);
      }
      assert files == Without(renamed, Removed(Stale(renamed), fault));
    }

    /** The `for` loop removing the stale names, in increasing order, until a removal fails. */
    method RemoveStale(stale: seq<string>, fault: Fault)
      modifies this
      ensures files == Without(old(files), Removed(stale, fault))
    {
      var i := 0;
      while i < |stale|
        invariant 0 <= i <= |stale|
        invariant files == Without(old(files), stale[..i])
        invariant fault.RemoveFails? ==> fault.removed >= i
      {
        if fault == RemoveFails(i) {
          return;
        }
        WithoutOneMore(old(files), stale, i);
        files := files - {stale[i]};
        i := i + 1;
      }
      assert stale[..|stale|] == stale;
    }
  }

  // -------------------------------------------------------------- properties

  lemma {:induction false} SortedCard(xs: seq<string>)
    requires StrictlySorted(xs)
    ensures |set n | n in xs| == |xs|
    decreases |xs|
  {
    if |xs| > 0 {
      var tail := xs[1..];
      SortedCard(tail);
      LessIrreflexive(xs[0]);
      assert xs[0] !in tail;
      assert (set n | n in xs) == (set n | n in tail) + {xs[0]};
    }
  }

  /** A read picks the greatest token name. */
  lemma LatestIsGreatest(files: Directory, g: string)
    requires g in TokenNames(files)
    requires forall n :: n in TokenNames(files) && n != g ==> Less(n, g)
    ensures Latest(files) == Some(files[g])
  {
    var names := Listing(TokenNames(files));
    GreatestIsLast(names, g);
  }

  /** The greatest token name, when there is one, is the last of the sorted listing. */
  lemma ListingLast(files: Directory) returns (g: string)
    requires TokenNames(files) != {}
    ensures g in TokenNames(files) && Latest(files) == Some(files[g])
    ensures forall n :: n in TokenNames(files) && n != g ==> Less(n, g)
  {
    var names := Listing(TokenNames(files));
    var x :| x in TokenNames(files);
    assert x in names;
    g := names[|names| - 1];
    forall n | n in TokenNames(files) && n != g ensures Less(n, g) {
      LastIsGreatest(names, n);
    }
  }

  /** Removing a prefix of a sorted listing keeps exactly the names of the rest of it. */
  lemma WithoutPrefix(d: Directory, names: seq<string>, cut: nat)
    requires StrictlySorted(names) && cut <= |names|
    requires forall n :: n in names <==> n in TokenNames(d)
    ensures forall n :: n in TokenNames(Without(d, names[..cut])) <==> n in names[cut..]
  {
    var r := Without(d, names[..cut]);
    forall n | n in names[cut..] ensures n in TokenNames(r) {
      var j :| 0 <= j < |names[cut..]| && names[cut..][j] == n;
      assert names[cut + j] == n;
      forall i | 0 <= i < cut ensures names[..cut][i] != n {
        assert Less(names[i], names[cut + j]);
        LessIrreflexive(n);
      }
      assert n !in names[..cut];
      assert n in names && n in d;
    }
    forall n | n in TokenNames(r) ensures n in names[cut..] {
      assert n in d && n !in names[..cut];
      assert n in names;
      var j :| 0 <= j < |names| && names[j] == n;
      assert names[cut..][j - cut] == n;
    }
  }

  /** Which token names pruning keeps: those of the sorted listing from `cut` on. */
  lemma PrunedNames(d: Directory) returns (names: seq<string>, cut: nat)
    ensures names == Listing(TokenNames(d)) && StrictlySorted(names)
    ensures forall n :: n in names <==> n in TokenNames(d)
    ensures cut == if |names| > KeptTokens then |names| - KeptTokens else 0
    ensures Stale(d) == names[..cut]
    ensures forall n :: n in TokenNames(Without(d, Stale(d))) <==> n in names[cut..]
  {
    names := Listing(TokenNames(d));
    cut := if |names| > KeptTokens then |names| - KeptTokens else 0;
    WithoutPrefix(d, names, cut);
  }

  /** Pruning only deletes: every file it keeps is unchanged, and every file that is not a token name is kept. */
  lemma PruningOnlyDeletes(d: Directory)
    ensures forall n :: n in Without(d, Stale(d)) ==> n in d && Without(d, Stale(d))[n] == d[n]
    ensures forall n :: n in d && !IsTokenName(n) ==> n in Without(d, Stale(d))
  {
    var names, cut := PrunedNames(d);
  }

  lemma SuffixSorted(xs: seq<string>, cut: nat)
    requires StrictlySorted(xs) && cut <= |xs|
    ensures StrictlySorted(xs[cut..])
  {
    forall i, j | 0 <= i < j < |xs| - cut ensures Less(xs[cut..][i], xs[cut..][j]) {
      assert xs[cut..][i] == xs[cut + i] && xs[cut..][j] == xs[cut + j];
    }
  }

  /** A set has as many elements as a strictly sorted sequence listing it. */
  lemma CardOfListing(s: set<string>, xs: seq<string>)
    requires StrictlySorted(xs)
    requires forall n :: n in s <==> n in xs
    ensures |s| == |xs|
  {
    SortedCard(xs);
    assert s == set n | n in xs;
  }

  /** At most five token names remain after pruning, exactly five when there were at least five. */
  lemma PruningKeepsFive(d: Directory)
    ensures |TokenNames(Without(d, Stale(d)))| == if |TokenNames(d)| < KeptTokens then |TokenNames(d)| else KeptTokens
  {
    var names, cut := PrunedNames(d);
    CardOfListing(TokenNames(d), names);
    SuffixSorted(names, cut);
    CardOfListing(TokenNames(Without(d, Stale(d))), names[cut..]);
  }

  /** Every token name pruning removes sorts before every token name it keeps. */
  lemma PruningRemovesOldest(d: Directory)
    ensures forall n, m :: n in TokenNames(d) && n !in Without(d, Stale(d)) && m in TokenNames(Without(d, Stale(d))) ==> Less(n, m)
  {
    var names, cut := PrunedNames(d);
    var r := Without(d, Stale(d));
    forall n, m | n in TokenNames(d) && n !in r && m in TokenNames(r) ensures Less(n, m) {
      var i :| 0 <= i < cut && names[..cut][i] == n;
      var j :| 0 <= j < |names[cut..]| && names[cut..][j] == m;
      assert names[i] == n && names[cut + j] == m;
    }
  }

  /** A successful write leaves at most five token names in the directory. */
  lemma WriteKeepsAtMostFive(files: Directory, token: string, stamp: string)
    ensures |TokenNames(AfterWrite(files, token, stamp, NoFault))| <= KeptTokens
  {
    var renamed := Renamed(files[StagingName := token], StagingName, TimestampedName(stamp));
    PruningKeepsFive(renamed);
  }

  /** A removed stale name is never the greatest token name. */
  lemma StaleExcludesGreatest(d: Directory, g: string, removed: seq<string>)
    requires g in TokenNames(d)
    requires forall n :: n in TokenNames(d) && n != g ==> Less(n, g)
    requires removed == Removed(Stale(d), NoFault) || exists k :: removed == Removed(Stale(d), RemoveFails(k))
    ensures g !in removed
  {
    var names := Listing(TokenNames(d));
    GreatestIsLast(names, g);
    var stale := Stale(d);
    if g in removed {
      var i :| 0 <= i < |removed| && removed[i] == g;
      assert |names| > KeptTokens && stale == names[..|names| - KeptTokens];
      assert names[i] == g && i < |names| - 1;
      assert Less(names[i], names[|names| - 1]);
      LessIrreflexive(g);
    }
  }

  /**
   * Round trip: when the new timestamped name sorts after every other token
   * name, a read after a write whose rename succeeded returns the token
   * written (a failing removal does not touch the newest file).
   */
  lemma WriteThenRead(files: Directory, token: string, stamp: string, fault: Fault)
    requires fault.NoFault? || fault.RemoveFails?
    requires forall n :: n in TokenNames(files) && n != StagingName ==> Less(n, TimestampedName(stamp))
    ensures Latest(AfterWrite(files, token, stamp, fault)) == Some(token)
  {
    var newest := TimestampedName(stamp);
    var renamed := Renamed(files[StagingName := token], StagingName, newest);
    var removed := Removed(Stale(renamed), fault);
    var r := Without(renamed, removed);
    assert r == AfterWrite(files, token, stamp, fault);
    forall n | n in TokenNames(renamed) && n != newest ensures Less(n, newest) {
      assert n in TokenNames(files) && n != StagingName;
    }
    StaleExcludesGreatest(renamed, newest, removed);
    LatestIsGreatest(r, newest);
  }

  /**
   * A write that fails before its rename leaves the latest token as it was,
   * provided some token name already sorts after the staging name.
   */
  lemma FailedWriteKeepsLatest(files: Directory, token: string, stamp: string, fault: Fault)
    requires fault.OpenFails? || fault.WriteFails? || fault.RenameFails?
    requires exists n :: n in TokenNames(files) && Less(StagingName, n)
    ensures Latest(AfterWrite(files, token, stamp, fault)) == Latest(files)
  {
    var after := AfterWrite(files, token, stamp, fault);
    var g := ListingLast(files);
    var n :| n in TokenNames(files) && Less(StagingName, n);
    if n != g {
      LessTransitive(StagingName, n, g);
    }
    LessIrreflexive(g);
    forall m | m in TokenNames(after) && m != g ensures Less(m, g) {
      if m != StagingName {
        assert m in TokenNames(files);
      }
    }
    LatestIsGreatest(after, g);
  }

  /**
   * Because the staging name matches the pattern, a write that fails part
   * way in a directory without tokens is read back as a truncated token.
   */
  lemma PartialWriteIsRead(stamp: string)
    ensures Latest(AfterWrite(map[], "ab", stamp, WriteFails(1))) == Some("a")
  {
    var after := AfterWrite(map[], "ab", stamp, WriteFails(1));
    assert Prefix("ab", 1) == "a";
    assert after == map[StagingName := "a"];
    StagingMatchesPattern();
    assert TokenNames(after) == {StagingName};
    LatestIsGreatest(after, StagingName);
  }

  /** The read the write protocol intends: the greatest committed token, the staging file ignored. */
  ghost function LatestCommitted(files: Directory): Option<string>
  {
    Latest(files - {StagingName})
  }

  /** With the staging file ignored, a write that fails before its rename never changes what is read. */
  lemma FailedWriteKeepsCommitted(files: Directory, token: string, stamp: string, fault: Fault)
    requires fault.OpenFails? || fault.WriteFails? || fault.RenameFails?
    ensures LatestCommitted(AfterWrite(files, token, stamp, fault)) == LatestCommitted(files)
  {
    assert AfterWrite(files, token, stamp, fault) - {StagingName} == files - {StagingName};
  }

  /** The round trip still holds when the staging file is ignored. */
  lemma WriteThenReadCommitted(files: Directory, token: string, stamp: string)
    requires TimestampedName(stamp) != StagingName
    requires forall n :: n in TokenNames(files) && n != StagingName ==> Less(n, TimestampedName(stamp))
    ensures LatestCommitted(AfterWrite(files, token, stamp, NoFault)) == Some(token)
  {
    var after := AfterWrite(files, token, stamp, NoFault);
    WriteThenRead(files, token, stamp, NoFault);
    assert StagingName !in after;
    assert after - {StagingName} == after;
  }
}