/** Installed releases and the two links to them, at every point where an update or a rollback may be cut off. */
module Releases {
  import opened Wrappers

  type Name = string
  type Files = map<string, string>

  datatype Manifest = Manifest(
    complete: bool, version: string, displayVersion: string, tag: string, releaseId: string,
    archive: Option<string>, commit: Option<string>, contentHash: string)

  datatype Dir = Dir(files: Files, manifest: Option<Manifest>)

  /** The release directories and where the links `current` and `previous` point. */
  datatype Disk = Disk(dirs: map<Name, Dir>, current: Option<Name>, previous: Option<Name>)

  datatype Candidate = Candidate(releaseId: Name, version: string, tag: string, commit: Option<string>)

  datatype UpdateError = UnsafeId | InUse | Incomplete | WrongVersion | HashMismatch | SmokeFailed | NotRemoved
    | NoPrevious

  /** How content is hashed, and whether an installed copy starts up and reports its version. */
  datatype Tools = Tools(hash: Files -> string, starts: (Files, string) -> bool)

  function ManifestOf(d: Disk, name: Name): Option<Manifest> {
    if name in d.dirs then d.dirs[name].manifest else None
  }

  /** `_verify_release`: the first check that fails. */
  function VerifyRelease(t: Tools, d: Disk, name: Name, expected: Option<string>): Option<UpdateError> {
    var m := ManifestOf(d, name);
    if m.None? || !m.value.complete then Some(Incomplete)
    else if expected.Some? && expected.value != "" && m.value.version != expected.value then Some(WrongVersion)
    else if m.value.contentHash == "" || m.value.contentHash != t.hash(d.dirs[name].files) then Some(HashMismatch)
    else if !t.starts(d.dirs[name].files, m.value.version) then Some(SmokeFailed)
    else None
  }

  /** A complete release whose files are the ones its manifest was made for. */
  predicate Whole(t: Tools, dir: Dir) {
    && dir.manifest.Some? && dir.manifest.value.complete
    && dir.manifest.value.contentHash != "" && dir.manifest.value.contentHash == t.hash(dir.files)
    && t.starts(dir.files, dir.manifest.value.version)
  }

  /** A release is verified exactly when it is whole and of the version asked for; and each complaint is true. */
  lemma VerifiedMeans(t: Tools, d: Disk, name: Name, expected: Option<string>)
    ensures var e, m := VerifyRelease(t, d, name, expected), ManifestOf(d, name);
            && (e.None? <==> name in d.dirs && Whole(t, d.dirs[name])
                             && (expected.None? || expected.value == "" || m.value.version == expected.value))
            && (e == Some(Incomplete) <==> m.None? || !m.value.complete)
            && (e == Some(WrongVersion) ==> expected.Some? && m.value.version != expected.value)
            && (e == Some(HashMismatch) ==>
                  m.value.contentHash == "" || m.value.contentHash != t.hash(d.dirs[name].files))
            && (e == Some(SmokeFailed) ==> !t.starts(d.dirs[name].files, m.value.version))
            && (e.Some? ==> e.value in {Incomplete, WrongVersion, HashMismatch, SmokeFailed})
  {
  }

  predicate Names(d: Disk, n: Name) {
    d.current == Some(n) || d.previous == Some(n)
  }

  /** Each link that is set names a whole release, and `previous` is not set alone. */
  ghost predicate Safe(t: Tools, d: Disk) {
    && (forall n :: Names(d, n) ==> n in d.dirs && Whole(t, d.dirs[n]))
    && (d.previous.Some? ==> d.current.Some?)
  }

  /** What a linked directory holds is not touched. */
  ghost predicate Kept(a: Disk, b: Disk) {
    forall n :: n in a.dirs && Names(a, n) ==> n in b.dirs && b.dirs[n] == a.dirs[n]
  }

  /** One atomic change to the disk: some change within a directory that no link names, or one link replaced. */
  ghost predicate Change(t: Tools, a: Disk, b: Disk) {
    || b == a
    || (exists n :: !Names(a, n) && b.current == a.current && b.previous == a.previous
                    && (b.dirs == a.dirs - {n} || (n in b.dirs && b.dirs == a.dirs[n := b.dirs[n]])))
    || (b == a.(current := b.current) && b.current.Some? && b.current.value in a.dirs && Whole(t, a.dirs[b.current.value]))
    || (b == a.(previous := b.previous) && b.previous.Some? && b.previous.value in a.dirs
        && Whole(t, a.dirs[b.previous.value]) && a.current.Some?)
  }

  lemma ChangeIsSafe(t: Tools, a: Disk, b: Disk)
    requires Safe(t, a) && Change(t, a, b)
    ensures Safe(t, b) && Kept(a, b)
  {
  }

  /** A history of the disk, one atomic change at a time. */
  ghost predicate History(t: Tools, trail: seq<Disk>) {
    trail != [] && Safe(t, trail[0]) && forall k :: 0 < k < |trail| ==> Change(t, trail[k - 1], trail[k])
  }

  /** Wherever a history is cut off, both links name whole releases; and while a link names a directory, nothing in
      it changes. */
  lemma {:induction false} CutOffAnywhere(t: Tools, trail: seq<Disk>, i: nat, j: nat, n: Name)
    requires History(t, trail) && i <= j < |trail|
    ensures Safe(t, trail[j])
    ensures (forall k :: i <= k < j ==> Names(trail[k], n)) && n in trail[i].dirs ==>
              n in trail[j].dirs && trail[j].dirs[n] == trail[i].dirs[n]
    decreases j
  {
    if j > 0 {
      CutOffAnywhere(t, trail, if i < j then i else j - 1, j - 1, n);
      ChangeIsSafe(t, trail[j - 1], trail[j]);
      if i < j && (forall k :: i <= k < j ==> Names(trail[k], n)) && n in trail[i].dirs {
        assert forall k :: i <= k < j - 1 ==> Names(trail[k], n);
        assert Names(trail[j - 1], n);
      }
    }
  }

  /** The links after an activation that runs to its end. */
  function Activated(d: Disk, name: Name, preserve: bool): Disk {
    d.(previous := if preserve && d.current.Some? && d.current != Some(name) then d.current else d.previous,
       current := Some(name))
  }

  /** The links after a rollback that runs to its end. */
  function RolledBack(d: Disk): Disk
    requires d.previous.Some?
  {
    d.(current := d.previous, previous := if d.current.Some? then d.current else d.previous)
  }

  /** Rolling back twice restores both links exactly when there was a current release; every safe disk has one. */
  lemma TwoRollbacks(t: Tools, d: Disk)
    requires d.previous.Some?
    ensures RolledBack(RolledBack(d)) == d <==> d.current.Some?
    ensures Safe(t, d) ==> RolledBack(RolledBack(d)) == d
  {
  }

  /** An update that is rolled back leaves the release that was current before it current again. */
  lemma RollbackUndoesUpdate(d: Disk, name: Name)
    requires d.current.Some? && d.current != Some(name)
    ensures var after := Activated(d, name, true);
            RolledBack(after).current == d.current && RolledBack(after).previous == Some(name)
  {
  }

  predicate SafeId(id: Name) {
    id != "" && id != "." && id != ".." && forall i :: 0 <= i < |id| ==> id[i] != '/'
  }

  /** The directory already holds what the candidate asks for. */
  predicate SameIdentity(m: Option<Manifest>, c: Candidate, version: string, archive: Option<string>) {
    && m.Some? && m.value.complete && m.value.version == version && m.value.displayVersion == c.version
    && m.value.tag == c.tag && m.value.releaseId == c.releaseId
    && (archive.Some? ==> m.value.archive == archive) && (c.commit.Some? ==> m.value.commit == c.commit)
  }

  class Installation {
    const tools: Tools
    var dirs: map<Name, Dir>
    var current: Option<Name>
    var previous: Option<Name>
    /** Every state the disk has been in. */
    ghost var trail: seq<Disk>

    function Now(): Disk
      reads this
    {
      Disk(dirs, current, previous)
    }

    ghost predicate Valid()
      reads this
    {
      History(tools, trail) && trail[|trail| - 1] == Now()
    }

    constructor (tools: Tools)
      ensures Valid() && this.tools == tools && Now() == Disk(map[], None, None)
    {
      this.tools := tools;
      dirs, current, previous := map[], None, None;
      trail := [Disk(map[], None, None)];
    }

    lemma ValidIsSafe()
      requires Valid()
      ensures Safe(tools, Now())
    {
      CutOffAnywhere(tools, trail, |trail| - 1, |trail| - 1, "");
    }

    /** `_build_release`. The source is copied by `writes`, each of which leaves some files in the directory; when the
        old directory is cleared away, `leftovers` are the states in between, and `cleared` says whether it worked. */
    method Build(c: Candidate, version: string, archive: Option<string>, leftovers: seq<Dir>, cleared: bool,
                 writes: seq<Files>) returns (r: Result<Name, UpdateError>)
      requires Valid()
      modifies this
      ensures Valid() && old(trail) <= trail
      ensures current == old(current) && previous == old(previous)
      ensures dirs.Keys <= old(dirs).Keys + {c.releaseId} && old(dirs).Keys <= dirs.Keys + {c.releaseId}
      ensures forall n :: n in old(dirs) && n != c.releaseId ==> dirs[n] == old(dirs[n])
      ensures r.Success? ==>
        && r.value == c.releaseId && r.value in dirs && Whole(tools, dirs[r.value])
        && SameIdentity(dirs[r.value].manifest, c, version, archive)
      ensures r.Success? ==>
        var m := dirs[r.value].manifest.value;
        && m.version == version && m.displayVersion == c.version && m.tag == c.tag && m.releaseId == c.releaseId
        && (archive.Some? ==> m.archive == archive) && (c.commit.Some? ==> m.commit == c.commit)
      ensures r == Failure(UnsafeId) <==>
        c.releaseId == "" || c.releaseId == "." || c.releaseId == ".." || '/' in c.releaseId
      ensures Names(old(Now()), c.releaseId) ==> Now() == old(Now())
      ensures
        && SafeId(c.releaseId) && !SameIdentity(ManifestOf(old(Now()), c.releaseId), c, version, archive)
        && !Names(old(Now()), c.releaseId) && cleared ==>
          var files := if writes == [] then map[] else writes[|writes| - 1];
          && (r.Success? <==> tools.starts(files, version) && tools.hash(files) != "")
          && c.releaseId in dirs && dirs[c.releaseId].files == files
          && (r.Success? ==> dirs[c.releaseId].manifest == Some(
                Manifest(true, version, c.version, c.tag, c.releaseId, archive, c.commit, tools.hash(files))))
      ensures SafeId(c.releaseId) && SameIdentity(ManifestOf(old(Now()), c.releaseId), c, version, archive) ==>
        && Now() == old(Now())
        && (r.Failure? <==> VerifyRelease(tools, old(Now()), c.releaseId, Some(version)).Some?)
      ensures r == Failure(InUse) <==>
        SafeId(c.releaseId) && !SameIdentity(ManifestOf(old(Now()), c.releaseId), c, version, archive)
        && Names(old(Now()), c.releaseId)
    {
      if !SafeId(c.releaseId) { return Failure(UnsafeId); }
      var name := c.releaseId;
      if SameIdentity(ManifestOf(Now(), name), c, version, archive) {
        var complaint := VerifyRelease(tools, Now(), name, Some(version));
        return if complaint.Some? then Failure(complaint.value) else Success(name);
      }
      if Names(Now(), name) { return Failure(InUse); }
      for i := 0 to |leftovers|
        invariant Valid() && old(trail) <= trail && current == old(current) && previous == old(previous)
        invariant dirs.Keys <= old(dirs).Keys + {name} && old(dirs).Keys <= dirs.Keys + {name}
        invariant forall n :: n in old(dirs) && n != name ==> dirs[n] == old(dirs[n])
      {
        Put(name, leftovers[i]);
      }
      if !cleared && name in dirs { return Failure(NotRemoved); }
      Remove(name);
      r := Install(c, version, archive, writes);
    }

    /** The copy, its first start, its manifest and its check, in a directory of its own. */
    method Install(c: Candidate, version: string, archive: Option<string>, writes: seq<Files>)
      returns (r: Result<Name, UpdateError>)
      requires Valid() && !Names(Now(), c.releaseId)
      modifies this`dirs, this`trail
      ensures Valid() && old(trail) <= trail
      ensures dirs.Keys == old(dirs).Keys + {c.releaseId}
      ensures forall n :: n in old(dirs) && n != c.releaseId ==> dirs[n] == old(dirs[n])
      ensures var files, dir := if writes == [] then map[] else writes[|writes| - 1], dirs[c.releaseId];
              && dir.files == files
              && (r == Success(c.releaseId) <==> tools.starts(files, version) && tools.hash(files) != "")
              && (r.Failure? <==> r != Success(c.releaseId)) && (r.Failure? ==> r.error in {SmokeFailed, HashMismatch})
              && (r.Success? ==>
                    dir.manifest == Some(Manifest(true, version, c.version, c.tag, c.releaseId, archive, c.commit,
                                                  tools.hash(files))))
    {
      var name := c.releaseId;
      Put(name, Dir(map[], None));
      for i := 0 to |writes|
        invariant Valid() && old(trail) <= trail && current == old(current) && previous == old(previous)
        invariant dirs.Keys == old(dirs).Keys + {name} && name in dirs
        invariant dirs[name] == Dir(if i == 0 then map[] else writes[i - 1], None)
        invariant forall n :: n in old(dirs) && n != name ==> dirs[n] == old(dirs[n])
      {
        Put(name, Dir(writes[i], None));
      }
      var files := dirs[name].files;
      if !tools.starts(files, version) { return Failure(SmokeFailed); }
      var manifest := Manifest(true, version, c.version, c.tag, c.releaseId, archive, c.commit, tools.hash(files));
      Put(name, Dir(files, Some(manifest)));
      var complaint := VerifyRelease(tools, Now(), name, Some(version));
      return if complaint.Some? then Failure(complaint.value) else Success(name);
    }

    /** One change within a directory that no link names. */
    method Put(name: Name, dir: Dir)
      requires Valid() && !Names(Now(), name)
      modifies this`dirs, this`trail
      ensures Valid() && old(trail) <= trail && dirs == old(dirs)[name := dir]
    {
      dirs := dirs[name := dir];
      trail := trail + [Now()];
      assert Change(tools, trail[|trail| - 2], Now());
    }

    method Remove(name: Name)
      requires Valid() && !Names(Now(), name)
      modifies this`dirs, this`trail
      ensures Valid() && old(trail) <= trail && dirs == old(dirs) - {name}
    {
      dirs := dirs - {name};
      trail := trail + [Now()];
      assert Change(tools, trail[|trail| - 2], Now());
    }

    /** `_activate_release`: the old release becomes `previous` before the new one becomes `current`. */
    method Activate(name: Name, preserve: bool) returns (r: Result<Manifest, UpdateError>)
      requires Valid()
      modifies this
      ensures Valid() && old(trail) <= trail
      ensures r.Failure? <==> VerifyRelease(tools, old(Now()), name, None).Some?
      ensures r.Failure? ==> Now() == old(Now())
      ensures r.Success? ==> Now() == Activated(old(Now()), name, preserve)
      ensures r.Success? ==>
        && dirs == old(dirs) && name in dirs && dirs[name].manifest == Some(r.value) && current == Some(name)
        && previous == if preserve && old(current).Some? && old(current) != Some(name) then old(current) else old(previous)
      ensures forall k :: |old(trail)| <= k < |trail| ==>
                trail[k].current == old(current) || trail[k].current == Some(name)
    {
      ValidIsSafe();
      var complaint := VerifyRelease(tools, Now(), name, None);
      if complaint.Some? { return Failure(complaint.value); }
      var before := current;
      if preserve && before.Some? && before != Some(name) {
        previous := before;
        trail := trail + [Now()];
      }
      current := Some(name);
      ghost var link := Now();
      assert Change(tools, trail[|trail| - 1], link);
      trail := trail + [Now()];
      return Success(dirs[name].manifest.value);
    }

    /** `rollback`. */
    method Rollback() returns (r: Result<(), UpdateError>)
      requires Valid()
      modifies this
      ensures Valid() && old(trail) <= trail
      ensures r.Success? <==> old(previous).Some?
      ensures r.Success? ==> Now() == RolledBack(old(Now()))
      ensures r.Success? ==> dirs == old(dirs) && current == old(previous) && previous == old(current)
      ensures r.Failure? ==> Now() == old(Now())
    {
      ValidIsSafe();
      var was := current;
      if previous.None? || previous.value !in dirs { return Failure(NoPrevious); }
      // Both checks pass: a link names whole releases only.
      assert VerifyRelease(tools, Now(), previous.value, None).None?;
      var activated := Activate(previous.value, false);
      assert activated.Success?;
      if was.Some? && was.value in dirs {
        previous := was;
        trail := trail + [Now()];
      }
      return Success(());
    }
  }
}
