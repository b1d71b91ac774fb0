/**
 Keeping the recovery file: a new version is written beside it, made durable, and renamed over it. The disk
 may fail any operation, and may lose power at any moment: an inode not synchronized since its last write
 may then hold anything, and the directory may be back at any state since it was last synchronized.
 */
module Recoveries {
  import opened Bytes
  import opened Recipes

  /** The recovery file and the temporary files beside it. */
  datatype Name = Target | Temporary(sequence: nat)

  datatype File = File(content: seq<byte>, synced: bool)

  /** `directories` are the directory's states since it was last synchronized, the current one last. */
  datatype Fs = Fs(inodes: map<nat, File>, directories: seq<map<Name, nat>>)

  predicate ValidFs(fs: Fs) {
    && fs.directories != []
    && forall k, n | 0 <= k < |fs.directories| && n in fs.directories[k] :: fs.directories[k][n] in fs.inodes
  }

  function Now(fs: Fs): map<Name, nat>
    requires fs.directories != []
  {
    fs.directories[|fs.directories| - 1]
  }

  /** What a name holds for a running process. */
  function Content(fs: Fs, n: Name): (c: Option<seq<byte>>)
    requires ValidFs(fs)
  {
    if n in Now(fs) then Some(fs.inodes[Now(fs)[n]].content) else None
  }

  /** What a name may hold after a crash. */
  ghost predicate AfterCrash(fs: Fs, n: Name, c: Option<seq<byte>>)
    requires ValidFs(fs)
  {
    exists k | 0 <= k < |fs.directories| :: Survives(fs, k, n, c)
  }

  predicate Survives(fs: Fs, k: nat, n: Name, c: Option<seq<byte>>)
    requires ValidFs(fs) && k < |fs.directories|
  {
    var d := fs.directories[k];
    if n !in d then c == None else c.Some? && (fs.inodes[d[n]].synced ==> c == Some(fs.inodes[d[n]].content))
  }

  /** In every directory state, the file is absent or a synchronized inode with one of the versions. */
  predicate Safe(fs: Fs, versions: set<Option<seq<byte>>>) {
    && ValidFs(fs)
    && forall k | 0 <= k < |fs.directories| :: TargetIn(fs, fs.directories[k], versions)
  }

  predicate TargetIn(fs: Fs, d: map<Name, nat>, versions: set<Option<seq<byte>>>)
  {
    if Target !in d then None in versions
    else d[Target] in fs.inodes && fs.inodes[d[Target]].synced && Some(fs.inodes[d[Target]].content) in versions
  }

  /** A crash in a safe state leaves one of the versions, whole. */
  lemma CrashLeavesVersion(fs: Fs, versions: set<Option<seq<byte>>>, c: Option<seq<byte>>)
    requires Safe(fs, versions) && AfterCrash(fs, Target, c)
    ensures c in versions
  {
    var k :| 0 <= k < |fs.directories| && Survives(fs, k, Target, c);
    assert TargetIn(fs, fs.directories[k], versions);
  }

  lemma SafeGrows(fs: Fs, versions: set<Option<seq<byte>>>, more: set<Option<seq<byte>>>)
    requires Safe(fs, versions)
    ensures Safe(fs, versions + more)
  {
    forall k | 0 <= k < |fs.directories|
      ensures TargetIn(fs, fs.directories[k], versions + more)
    {
      assert TargetIn(fs, fs.directories[k], versions);
    }
  }

  /** What becomes of safety when one inode changes and one directory state is added. */
  lemma SafeStep(fs: Fs, after: Fs, versions: set<Option<seq<byte>>>)
    requires Safe(fs, versions) && ValidFs(after)
    requires forall i | i in fs.inodes && fs.inodes[i].synced :: i in after.inodes && after.inodes[i] == fs.inodes[i]
    requires after.directories == fs.directories ||
      (|after.directories| == |fs.directories| + 1 && after.directories[..|fs.directories|] == fs.directories && TargetIn(after, Now(after), versions))
    ensures Safe(after, versions)
  {
    forall k | 0 <= k < |after.directories|
      ensures TargetIn(after, after.directories[k], versions)
    {
      if k < |fs.directories| {
        assert TargetIn(fs, fs.directories[k], versions);
        assert after.directories[k] == fs.directories[k];
      }
    }
  }

  lemma SafeNow(fs: Fs, versions: set<Option<seq<byte>>>)
    requires Safe(fs, versions)
    ensures TargetIn(fs, Now(fs), versions) && Safe(fs.(directories := [Now(fs)]), versions)
  {
    assert TargetIn(fs, fs.directories[|fs.directories| - 1], versions);
  }

  // ---- A disk that may fail ----

  /** How the next operation goes; a write may stop short. */
  datatype Verdict = Works | Fails | Short(count: nat)

  class Disk {
    var fs: Fs
    var nextInode: nat
    var script: seq<Verdict>

    /** Every state the disk has been in since. */
    ghost var visited: seq<Fs>

    ghost predicate Valid()
      reads this
    {
      ValidFs(fs) && (forall i | i in fs.inodes :: i < nextInode)
    }

    constructor (fs: Fs, nextInode: nat, script: seq<Verdict>)
      requires ValidFs(fs) && forall i | i in fs.inodes :: i < nextInode
      ensures Valid() && this.fs == fs && visited == [fs]
    {
      this.fs, this.nextInode, this.script, visited := fs, nextInode, script, [fs];
    }

    method Next() returns (v: Verdict)
      modifies this`script
    {
      if script == [] {
        return Works;
      }
      v := script[0];
      script := script[1..];
    }

    method CreateNew(n: Name) returns (exists_: bool, inode: Option<nat>)
      requires Valid()
      modifies this
      ensures Valid()
      ensures exists_ ==> inode == None && n in Now(old(fs))
      ensures inode.None? ==> fs == old(fs) && visited == old(visited)
      ensures inode.Some? ==>
        && n !in Now(old(fs)) && inode.value !in old(fs).inodes
        && fs == Fs(old(fs).inodes[inode.value := File([], false)], old(fs).directories + [Now(old(fs))[n := inode.value]])
        && visited == old(visited) + [fs]
    {
      if n in Now(fs) {
        return true, None;
      }
      exists_ := false;
      var v := Next();
      if v != Works {
        return false, None;
      }
      var i := nextInode;
      nextInode := i + 1;
      fs := Fs(fs.inodes[i := File([], false)], fs.directories + [Now(fs)[n := i]]);
      visited := visited + [fs];
      inode := Some(i);
    }

    method WriteAll(inode: nat, bytes: seq<byte>) returns (ok: bool)
      requires Valid() && inode in fs.inodes && fs.inodes[inode] == File([], false)
      modifies this
      ensures Valid()
      ensures exists part | part <= bytes ::
        (ok ==> part == bytes) && fs == old(fs).(inodes := old(fs).inodes[inode := File(part, false)])
      ensures visited == old(visited) + [fs]
    {
      var v := Next();
      var count := match v case Works => |bytes| case Fails => 0 case Short(n) => Min(n, |bytes|);
      ok := count == |bytes|;
      fs := fs.(inodes := fs.inodes[inode := File(bytes[..count], false)]);
      visited := visited + [fs];
      assert bytes[..count] <= bytes;
    }

    method SyncAll(inode: nat) returns (ok: bool)
      requires Valid() && inode in fs.inodes
      modifies this
      ensures Valid()
      ensures fs == if ok then old(fs).(inodes := old(fs).inodes[inode := old(fs).inodes[inode].(synced := true)]) else old(fs)
      ensures visited == old(visited) + [fs]
    {
      var v := Next();
      ok := v == Works;
      if ok {
        fs := fs.(inodes := fs.inodes[inode := fs.inodes[inode].(synced := true)]);
      }
      visited := visited + [fs];
    }

    method Rename(from: Name) returns (ok: bool)
      requires Valid() && from != Target
      modifies this
      ensures Valid()
      ensures ok ==> from in Now(old(fs))
      ensures ok ==> fs == old(fs).(directories := old(fs).directories + [(Now(old(fs)) - {from})[Target := Now(old(fs))[from]]])
      ensures !ok ==> fs == old(fs)
      ensures visited == old(visited) + [fs]
    {
      var v := Next();
      ok := v == Works && from in Now(fs);
      if ok {
        fs := fs.(directories := fs.directories + [(Now(fs) - {from})[Target := Now(fs)[from]]]);
      }
      visited := visited + [fs];
    }

    method Remove(n: Name)
      requires Valid() && n != Target
      modifies this
      ensures Valid()
      ensures fs == old(fs) || fs == old(fs).(directories := old(fs).directories + [Now(old(fs)) - {n}])
      ensures visited == old(visited) + [fs]
    {
      var v := Next();
      if v == Works {
        fs := fs.(directories := fs.directories + [Now(fs) - {n}]);
      }
      visited := visited + [fs];
    }

    method SyncDirectory()
      requires Valid()
      modifies this
      ensures Valid()
      ensures fs == old(fs) || fs == old(fs).(directories := [Now(old(fs))])
      ensures visited == old(visited) + [fs]
    {
      var v := Next();
      if v == Works {
        fs := fs.(directories := [Now(fs)]);
      }
      visited := visited + [fs];
    }
  }

  // ---- The recovery file ----

  datatype Cache = Fresh | Saved(bytes: seq<byte>) | Disabled

  datatype Outcome = Unchanged | Published | Error

  class Recovery {
    const disk: Disk
    var cache: Cache
    var sequence: nat

    /** The opening content and every version published since. */
    ghost var versions: set<Option<seq<byte>>>

    ghost predicate CacheOk()
      requires ValidFs(disk.fs)
      reads this, disk
    {
      match cache
      case Fresh => Content(disk.fs, Target) == None
      case Saved(bytes) => Content(disk.fs, Target) == Some(bytes)
      case Disabled => true
    }

    ghost predicate Valid()
      reads this, disk
    {
      && disk.Valid() && Safe(disk.fs, versions) && CacheOk()
      && forall s | s in disk.visited :: Safe(s, versions)
    }

    /** A missing file starts fresh, a file that decodes is remembered, anything else disables saving. */
    constructor Open(disk: Disk, readable: bool)
      requires disk.Valid() && Safe(disk.fs, {Content(disk.fs, Target)}) && disk.visited == [disk.fs]
      ensures Valid() && this.disk == disk && versions == {Content(disk.fs, Target)}
      ensures var c := Content(disk.fs, Target);
        cache == if c.None? then Fresh
                 else if readable && |c.value| >= 8 && Decode(c.value).Some? then Saved(c.value) else Disabled
    {
      var c := Content(disk.fs, Target);
      var accepted := false;
      if c.Some? && readable && |c.value| >= 8 {
        var recipes := DecodeRecipes(c.value);
        accepted := recipes.Some?;
      }
      this.disk := disk;
      cache := if c.None? then Fresh else if accepted then Saved(c.value) else Disabled;
      sequence := 0;
      versions := {c};
    }

    /** A temporary name not yet taken, tried a bounded number of times. */
    method Reserve() returns (r: Option<(Name, nat)>)
      requires Valid()
      modifies this`sequence, disk
      ensures Valid() && Content(disk.fs, Target) == Content(old(disk.fs), Target)
      ensures r.None? ==> disk.fs == old(disk.fs) && disk.visited == old(disk.visited)
      ensures r.Some? ==>
        && r.value.0.Temporary? && r.value.0 in Now(disk.fs) && Now(disk.fs)[r.value.0] == r.value.1
        && r.value.1 in disk.fs.inodes && disk.fs.inodes[r.value.1] == File([], false)
    {
      for attempt := 0 to 64
        invariant Valid() && disk.fs == old(disk.fs) && disk.visited == old(disk.visited)
      {
        var n := Temporary(sequence);
        sequence := sequence + 1;
        var exists_, inode := disk.CreateNew(n);
        if inode.Some? {
          SafeNow(old(disk.fs), versions);
          SafeStep(old(disk.fs), disk.fs, versions);
          return Some((n, inode.value));
        }
        if !exists_ {
          return None;
        }
      }
      r := None;
    }

    /** Whether a save has nothing to do or nothing it may do. */
    predicate Idle(recipes: seq<Recipe>)
      reads this
    {
      cache.Disabled? || (recipes == [] && cache.Fresh?) || (cache.Saved? && Encode(recipes) == Some(cache.bytes))
    }

    /** Drop a temporary file that was not published. */
    method Discard(n: Name)
      requires Valid() && n.Temporary?
      modifies disk
      ensures Valid() && Content(disk.fs, Target) == Content(old(disk.fs), Target)
    {
      disk.Remove(n);
      SafeNow(old(disk.fs), versions);
      if disk.fs != old(disk.fs) {
        SafeStep(old(disk.fs), disk.fs, versions);
      }
    }

    /** Fill and synchronize a reserved file, before anybody can read it under the real name. */
    method Fill(n: Name, inode: nat, bytes: seq<byte>) returns (ok: bool)
      requires Valid() && n.Temporary? && n in Now(disk.fs) && Now(disk.fs)[n] == inode
      requires inode in disk.fs.inodes && disk.fs.inodes[inode] == File([], false)
      modifies disk
      ensures Valid() && Content(disk.fs, Target) == Content(old(disk.fs), Target)
      ensures disk.fs.directories == old(disk.fs).directories
      ensures ok ==> inode in disk.fs.inodes && disk.fs.inodes[inode] == File(bytes, true)
    {
      SafeNow(disk.fs, versions);
      var wrote := disk.WriteAll(inode, bytes);
      SafeStep(old(disk.fs), disk.fs, versions);
      if !wrote {
        return false;
      }
      ghost var filled := disk.fs;
      SafeNow(filled, versions);
      ok := disk.SyncAll(inode);
      SafeStep(filled, disk.fs, versions);
    }

    /** Rename the filled file over the recovery file: the only step that changes what a reader finds. */
    method Publish(n: Name, inode: nat, bytes: seq<byte>) returns (ok: bool)
      requires Valid() && n.Temporary? && n in Now(disk.fs) && Now(disk.fs)[n] == inode
      requires inode in disk.fs.inodes && disk.fs.inodes[inode] == File(bytes, true)
      modifies this, disk
      ensures Valid()
      ensures ok ==> cache == Saved(bytes) && versions == old(versions) + {Some(bytes)}
      ensures !ok ==> cache == old(cache) && versions == old(versions) && disk.fs == old(disk.fs)
    {
      ok := disk.Rename(n);
      if !ok {
        return;
      }
      ghost var grown := versions + {Some(bytes)};
      forall s | s in disk.visited && s != disk.fs
        ensures Safe(s, grown)
      {
        SafeGrows(s, versions, {Some(bytes)});
      }
      SafeGrows(old(disk.fs), versions, {Some(bytes)});
      SafeStep(old(disk.fs), disk.fs, grown);
      versions := grown;
      ghost var renamed := disk.fs;
      disk.SyncDirectory();
      SafeNow(renamed, versions);
      cache := Saved(bytes);
    }

    /**
     Save the tabs' recipes. Whatever fails and whenever, the recovery file is one of the versions: the
     opening content or a complete encoding; only a published save changes what it holds.
     */
    method Save(recipes: seq<Recipe>) returns (r: Outcome)
      requires Valid()
      modifies this, disk
      ensures Valid()
      ensures old(Idle(recipes)) ==> r == Unchanged && unchanged(disk) && versions == old(versions) && cache == old(cache)
      ensures !old(Idle(recipes)) && Encode(recipes).None? ==> r == Error && unchanged(disk)
      ensures r == Unchanged ==> old(Idle(recipes))
      ensures r == Published ==>
        Encode(recipes).Some? && cache == Saved(Encode(recipes).value) && versions == old(versions) + {Encode(recipes)}
      ensures r != Published ==> cache == old(cache) && versions == old(versions) && Content(disk.fs, Target) == Content(old(disk.fs), Target)
    {
      hide Encode;
      if cache.Disabled? || (recipes == [] && cache.Fresh?) {
        return Unchanged;
      }
      var encoded := EncodeRecipes(recipes);
      if encoded.None? {
        return Error;
      }
      var bytes := encoded.value;
      if cache == Saved(bytes) {
        return Unchanged;
      }
      var reserved := Reserve();
      if reserved.None? {
        return Error;
      }
      var (n, inode) := reserved.value;
      var filled := Fill(n, inode, bytes);
      if !filled {
        Discard(n);
        return Error;
      }
      var published := Publish(n, inode, bytes);
      Discard(n);
      r := if published then Published else Error;
    }
  }

  /** The complete encodings a run may have published. */
  function Encodings(saves: seq<seq<Recipe>>): (vs: set<Option<seq<byte>>>) {
    set i | 0 <= i < |saves| && Encode(saves[i]).Some? :: Encode(saves[i])
  }

  /**
   Any run: open once, save any number of times, with any disk failures. At every moment a crash leaves the
   opening content or one complete encoding of a saved list; and if opening failed, nothing is ever changed.
   */
  method RunSaves(disk: Disk, readable: bool, saves: seq<seq<Recipe>>) returns (recovery: Recovery)
    requires disk.Valid() && Safe(disk.fs, {Content(disk.fs, Target)}) && disk.visited == [disk.fs]
    modifies disk
    ensures recovery.Valid() && recovery.disk == disk
    ensures forall s, c | s in disk.visited && ValidFs(s) && AfterCrash(s, Target, c) ::
      c in {Content(old(disk.fs), Target)} + Encodings(saves)
    ensures recovery.cache.Disabled? ==> disk.fs == old(disk.fs) && disk.visited == [disk.fs]
  {
    hide Encode;
    recovery := new Recovery.Open(disk, readable);
    ghost var opening := Content(disk.fs, Target);
    for i := 0 to |saves|
      invariant fresh(recovery) && recovery.Valid() && recovery.disk == disk
      invariant recovery.versions <= {opening} + Encodings(saves)
      invariant recovery.cache.Disabled? ==> disk.fs == old(disk.fs) && disk.visited == [disk.fs]
    {
      var r := recovery.Save(saves[i]);
    }
    forall s, c | s in disk.visited && ValidFs(s) && AfterCrash(s, Target, c)
      ensures c in {opening} + Encodings(saves)
    {
      CrashLeavesVersion(s, recovery.versions, c);
    }
  }
}
