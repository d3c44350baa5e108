/** Publishing certificate versions by replacing one symlink.

    `history` holds every state of the directory a crash could leave behind: each
    file-system operation is one atomic step, and each may fail or be the last one. */
module Publication {
  import opened Wrappers

  datatype File = Regular(data: string) | SymbolicLink

  datatype Node = Directory(files: map<string, File>) | Link(target: string) | Other

  /** The entries of the tls directory. */
  type Tls = map<string, Node>

  const CURRENT := "current"
  const FULLCHAIN := "fullchain.pem"
  const PRIVKEY := "privkey.pem"
  const VERSION := "version-"

  function LinkName(token: string): string {
    ".current-" + token
  }

  function StagingName(token: string): string {
    ".staging-" + token
  }

  function VersionName(token: string): string {
    VERSION + token
  }

  /** Whether a certificate chain and a key load together. */
  type Matcher = (string, string) -> bool

  predicate IsVersion(name: string) {
    VERSION <= name && '/' !in name
  }

  predicate Complete(node: Node, matches: Matcher) {
    node.Directory? && node.files.Keys == {FULLCHAIN, PRIVKEY} &&
    node.files[FULLCHAIN].Regular? && node.files[PRIVKEY].Regular? &&
    matches(node.files[FULLCHAIN].data, node.files[PRIVKEY].data)
  }

  /** Every version is a complete validated pair, and `current` is absent or names one. */
  ghost predicate Good(t: Tls, matches: Matcher) {
    (forall name :: name in t && VERSION <= name ==> Complete(t[name], matches)) &&
    (CURRENT in t ==> t[CURRENT].Link? && IsVersion(t[CURRENT].target) && t[CURRENT].target in t)
  }

  /** No published version is removed or altered. */
  ghost predicate Keeps(a: Tls, b: Tls) {
    forall name :: name in a && VERSION <= name ==> name in b && b[name] == a[name]
  }

  /** Every recorded state is good and keeps the versions of the one before. */
  ghost predicate SoundHistory(history: seq<Tls>, matches: Matcher) {
    (forall i :: 0 <= i < |history| ==> Good(history[i], matches)) &&
    (forall i :: 0 < i < |history| ==> Keeps(history[i - 1], history[i]))
  }

  function PairOf(cert: string, key: string): Node {
    Directory(map[FULLCHAIN := Regular(cert), PRIVKEY := Regular(key)])
  }

  function Entry(t: Tls, name: string): Option<Node> {
    if name in t then Some(t[name]) else None
  }

  /** What opening a file below `current` finds. */
  function ReadCurrent(t: Tls, file: string): Option<string> {
    if CURRENT !in t || !t[CURRENT].Link? || t[CURRENT].target !in t then None
    else
      var node := t[t[CURRENT].target];
      if node.Directory? && file in node.files && node.files[file].Regular? then Some(node.files[file].data) else None
  }

  predicate Serves(t: Tls, cert: string, key: string) {
    ReadCurrent(t, FULLCHAIN) == Some(cert) && ReadCurrent(t, PRIVKEY) == Some(key)
  }

  lemma GoodServes(t: Tls, matches: Matcher)
    requires Good(t, matches) && CURRENT in t
    ensures ReadCurrent(t, FULLCHAIN).Some? && ReadCurrent(t, PRIVKEY).Some?
    ensures matches(ReadCurrent(t, FULLCHAIN).value, ReadCurrent(t, PRIVKEY).value)
  {
  }

  predicate IsDirectory(t: Tls, name: string) {
    name in t && t[name].Directory?
  }

  /** Nothing in the directory keeps a new `current` link from being put in place. */
  predicate LinkReady(t: Tls, token: string) {
    LinkName(token) !in t && !IsDirectory(t, CURRENT)
  }

  predicate IsSymbolicLink(t: Tls, name: string, file: string) {
    name in t && t[name].Directory? && file in t[name].files && t[name].files[file].SymbolicLink?
  }

  /** `current` points to something that is neither a directory nor a link. */
  predicate IsOther(t: Tls) {
    CURRENT in t && t[CURRENT].Link? && t[CURRENT].target in t && t[t[CURRENT].target].Other?
  }

  /** What current_target accepts of an existing `current`. */
  predicate Trusted(t: Tls)
    requires CURRENT in t
  {
    t[CURRENT].Link? && IsVersion(t[CURRENT].target) &&
    (t[CURRENT].target in t ==> !t[t[CURRENT].target].Link?) &&
    forall file :: file in {FULLCHAIN, PRIVKEY} ==> !IsSymbolicLink(t, t[CURRENT].target, file)
  }

  /** `current` was the same in every recorded state from `from` on. */
  ghost predicate Untouched(history: seq<Tls>, from: nat, current: Option<Node>) {
    forall i :: from <= i < |history| ==> Entry(history[i], CURRENT) == current
  }

  /** `current` names the version of this token, which holds the pair; the other versions stand. */
  ghost predicate Switched(before: Tls, t: Tls, token: string, cert: string, key: string) {
    var version := VersionName(token);
    Entry(t, CURRENT) == Some(Link(version)) && Entry(t, version) == Some(PairOf(cert, key)) &&
    forall name :: VERSION <= name && name != version ==> Entry(t, name) == Entry(before, name)
  }

  /** Neither `current` nor a version. */
  predicate IsScratch(name: string) {
    name != CURRENT && !(VERSION <= name)
  }

  lemma ScratchNames(token: string, other: string)
    ensures IsScratch(LinkName(token)) && IsScratch(StagingName(token)) && StagingName(token) != LinkName(other)
  {
    assert LinkName(token)[0] == '.' && StagingName(token)[0] == '.';
    assert LinkName(other)[1] == 'c' && StagingName(token)[1] == 's';
  }

  lemma PairIsComplete(cert: string, key: string, matches: Matcher)
    ensures Complete(PairOf(cert, key), matches) <==> matches(cert, key)
  {
  }

  /** The steps of a publication, as changes of a good directory. */
  lemma ScratchStep(t: Tls, u: Tls, matches: Matcher)
    requires Good(t, matches) && forall name :: !IsScratch(name) ==> Entry(u, name) == Entry(t, name)
    ensures Good(u, matches) && Keeps(t, u)
  {
    assert !IsScratch(CURRENT) && Entry(u, CURRENT) == Entry(t, CURRENT);
    forall name | VERSION <= name ensures Entry(u, name) == Entry(t, name) { assert !IsScratch(name); }
    if CURRENT in u { assert Entry(u, u[CURRENT].target) == Entry(t, t[CURRENT].target); }
    forall name | name in u && VERSION <= name ensures Complete(u[name], matches) {
      assert Entry(u, name) == Entry(t, name);
    }
    forall name | name in t && VERSION <= name ensures name in u && u[name] == t[name] {
      assert Entry(u, name) == Entry(t, name);
    }
  }

  lemma NewVersion(t: Tls, version: string, matches: Matcher)
    requires Good(t, matches) && VERSION <= version && (version in t ==> t[version] == Directory(map[]))
    ensures version !in t
  {
  }

  lemma RenameStep(t: Tls, staging: string, version: string, matches: Matcher)
    requires Good(t, matches) && IsScratch(staging) && staging in t && version !in t && VERSION <= version
    requires Complete(t[staging], matches)
    ensures var u := (t - {staging})[version := t[staging]]; Good(u, matches) && Keeps(t, u)
  {
    var u := (t - {staging})[version := t[staging]];
    assert CURRENT != version && CURRENT != staging;
    assert Entry(u, CURRENT) == Entry(t, CURRENT);
  }

  lemma SwitchStep(t: Tls, link: string, name: string, matches: Matcher)
    requires Good(t, matches) && IsScratch(link) && IsVersion(name) && name in t
    ensures var u := (t - {link})[CURRENT := Link(name)]; Good(u, matches) && Keeps(t, u)
  {
    var u := (t - {link})[CURRENT := Link(name)];
    assert !(VERSION <= CURRENT);
    assert name != link && name != CURRENT;
  }

  datatype Phase = Preparing | Certbot | Lineage | Published | Pair | Store | Health

  datatype Failure = ManagerError(phase: Phase) | OsError(phase: Phase) | StopRequested(phase: Phase)

  /** A function's return value or the exception it raised. */
  datatype Outcome<+T> = Returned(value: T) | Raised(failure: Failure)

  type Done = Outcome<()>

  const DONE: Done := Returned(())

  datatype LineageFiles = LineageFiles(cert: Option<string>, key: Option<string>)

  predicate Present(lineage: LineageFiles) {
    lineage.cert.Some? && lineage.key.Some?
  }

  class Manager {
    const matches: Matcher
    const reliable: bool
    var tls: Tls
    var history: seq<Tls>

    ghost predicate Recorded()
      reads this
    {
      history != [] && history[|history| - 1] == tls
    }

    ghost predicate Sound()
      reads this
    {
      Recorded() && SoundHistory(history, matches)
    }

    lemma SoundIsGood()
      ensures Sound() ==> Good(tls, matches)
    {
    }

    constructor (matches: Matcher, tls: Tls, reliable: bool)
      ensures this.matches == matches && this.reliable == reliable && this.tls == tls && history == [tls] && Recorded()
      ensures Good(tls, matches) ==> Sound()
    {
      this.matches, this.reliable, this.tls, history := matches, reliable, tls, [tls];
    }

    /** Whether the operating system refuses the next operation. */
    method Fails() returns (r: bool)
      ensures reliable ==> !r
    {
      r := *;
      if reliable { r := false; }
    }

    /** One atomic step of the file system. */
    method Become(t: Tls)
      requires Recorded()
      modifies this
      ensures tls == t && history == old(history) + [t] && Recorded()
      ensures old(Sound()) && Good(t, matches) && Keeps(old(tls), t) ==> Sound()
    {
      tls, history := t, history + [t];
    }

    /** A step that leaves `current` and all versions alone. */
    method Scratch(name: string, node: Option<Node>)
      requires Recorded() && IsScratch(name)
      modifies this
      ensures tls == (if node.Some? then old(tls)[name := node.value] else old(tls) - {name})
      ensures history == old(history) + [tls] && Recorded() && (old(Sound()) ==> Sound())
    {
      var t := if node.Some? then tls[name := node.value] else tls - {name};
      assert Sound() ==> Good(t, matches) && Keeps(tls, t) by { if Sound() { ScratchStep(tls, t, matches); } }
      Become(t);
    }

    /** The name `current` points to, after refusing every other kind of entry. */
    method CurrentTarget() returns (r: Outcome<Option<string>>)
      ensures r == if CURRENT !in tls then Returned(None)
                   else if Trusted(tls) then Returned(Some(tls[CURRENT].target))
                   else Raised(ManagerError(Published))
      ensures Good(tls, matches) ==> r.Returned?
    {
      if CURRENT !in tls { return Returned(None); }
      if !tls[CURRENT].Link? { return Raised(ManagerError(Published)); }
      var target := tls[CURRENT].target;
      if '/' in target || !(VERSION <= target) { return Raised(ManagerError(Published)); }
      if target in tls && tls[target].Link? { return Raised(ManagerError(Published)); }
      var names := [FULLCHAIN, PRIVKEY];
      for i := 0 to 2
        invariant forall k :: 0 <= k < i ==> !IsSymbolicLink(tls, target, names[k])
      {
        if IsSymbolicLink(tls, target, names[i]) {
          assert names[i] in {FULLCHAIN, PRIVKEY};
          return Raised(ManagerError(Published));
        }
      }
      assert !IsSymbolicLink(tls, target, names[0]) && !IsSymbolicLink(tls, target, names[1]);
      return Returned(Some(target));
    }

    /** Putting `current` on a version: a new link renamed over the old one. */
    method SwitchToVersion(name: string, token: string, phase: Phase) returns (r: Done)
      requires Recorded()
      modifies this
      ensures Recorded() && old(history) <= history
      ensures old(Sound()) && IsVersion(name) && name in old(tls) ==> Sound()
      ensures forall i :: |old(history)| <= i < |history| ==>
        Entry(history[i], CURRENT) == old(Entry(tls, CURRENT)) || Entry(history[i], CURRENT) == Some(Link(name))
      ensures forall other :: VERSION <= other ==> Entry(tls, other) == old(Entry(tls, other))
      ensures Entry(tls, CURRENT) == old(Entry(tls, CURRENT)) || Entry(tls, CURRENT) == Some(Link(name))
      ensures r.Returned? ==> Entry(tls, CURRENT) == Some(Link(name))
      ensures r.Raised? ==> r.failure == OsError(phase)
      ensures reliable && LinkReady(old(tls), token) ==> r.Returned?
      ensures r.Returned? ==> forall other :: other != CURRENT && other in tls ==> other in old(tls)
    {
      hide Sound, Good, Keeps, Complete;
      var link := LinkName(token);
      ScratchNames(token, token);
      r := ReplaceCurrent(link, name, phase);
      if link in tls {
        var fails := Fails();
        if fails { return Raised(OsError(phase)); }
        Scratch(link, None);
      }
    }

    /** The try block of switch_to_version. */
    method ReplaceCurrent(link: string, name: string, phase: Phase) returns (r: Done)
      requires Recorded() && IsScratch(link)
      modifies this
      ensures Recorded() && old(history) <= history
      ensures old(Sound()) && IsVersion(name) && name in old(tls) ==> Sound()
      ensures forall i :: |old(history)| <= i < |history| ==>
        Entry(history[i], CURRENT) == old(Entry(tls, CURRENT)) || Entry(history[i], CURRENT) == Some(Link(name))
      ensures forall other :: VERSION <= other ==> Entry(tls, other) == old(Entry(tls, other))
      ensures Entry(tls, CURRENT) == old(Entry(tls, CURRENT)) || Entry(tls, CURRENT) == Some(Link(name))
      ensures r.Returned? ==> Entry(tls, CURRENT) == Some(Link(name))
      ensures r.Raised? ==> r.failure == OsError(phase)
      ensures reliable && link !in old(tls) && !IsDirectory(old(tls), CURRENT) ==> r.Returned?
      ensures r.Returned? ==> forall other :: other != CURRENT && other in tls ==> other in old(tls)
    {
      hide Sound, Good, Keeps, Complete;
      var fails := Fails();
      if fails { return Raised(OsError(phase)); }
      if link in tls { return Raised(OsError(phase)); }
      Scratch(link, Some(Link(name)));
      fails := Fails();
      if fails { return Raised(OsError(phase)); }
      if IsDirectory(tls, CURRENT) { return Raised(OsError(phase)); }
      var t := (tls - {link})[CURRENT := Link(name)];
      assert Sound() && IsVersion(name) && name in tls ==> Good(t, matches) && Keeps(tls, t) by {
        if Sound() && IsVersion(name) && name in tls {
          SoundIsGood();
          SwitchStep(tls, link, name, matches);
        }
      }
      Become(t);
      fails := Fails();
      if fails { return Raised(OsError(phase)); }
      return DONE;
    }

    /** Writing both files to the staging directory and validating them; a pair that cannot
        be read back is reported like one that does not match. */
    method WritePair(cert: string, key: string, staging: string) returns (r: Done)
      requires Recorded() && IsScratch(staging) && staging in tls
      modifies this
      ensures Recorded() && old(history) <= history && (old(Sound()) ==> Sound()) && staging in tls
      ensures Untouched(history, |old(history)|, old(Entry(tls, CURRENT)))
      ensures forall name :: name != staging ==> Entry(tls, name) == old(Entry(tls, name))
      ensures r.Returned? ==> matches(cert, key) && tls[staging] == PairOf(cert, key)
      ensures r.Raised? ==> r.failure == OsError(Store) || r.failure == ManagerError(Pair)
      ensures reliable ==> r == if matches(cert, key) then DONE else Raised(ManagerError(Pair))
    {
      hide Sound, Good, Keeps, Complete;
      var fails := Fails();
      if fails { return Raised(OsError(Store)); }
      Scratch(staging, Some(Directory(map[FULLCHAIN := Regular(cert)])));
      fails := Fails();
      if fails { return Raised(OsError(Store)); }
      Scratch(staging, Some(PairOf(cert, key)));
      fails := Fails();
      if fails { return Raised(OsError(Store)); }
      fails := Fails();
      return if matches(cert, key) && !fails then DONE else Raised(ManagerError(Pair));
    }

    /** The staging directory becomes a version in one rename. */
    method RenameStaging(staging: string, version: string) returns (r: Done)
      requires Recorded() && IsScratch(staging) && staging in tls && VERSION <= version
      requires Complete(tls[staging], matches)
      modifies this
      ensures Recorded() && old(history) <= history && (old(Sound()) ==> Sound())
      ensures Untouched(history, |old(history)|, old(Entry(tls, CURRENT)))
      ensures Entry(tls, CURRENT) == old(Entry(tls, CURRENT))
      ensures forall name :: VERSION <= name && name != version ==> Entry(tls, name) == old(Entry(tls, name))
      ensures r.Returned? ==> staging !in tls && Entry(tls, version) == old(Entry(tls, staging))
      ensures r.Returned? ==> Entry(old(tls), version) in [None, Some(Directory(map[]))]
      ensures r.Raised? ==> r.failure == OsError(Store)
      ensures reliable && version !in old(tls) ==> r.Returned?
      ensures forall name :: name != staging && name != version ==> Entry(tls, name) == old(Entry(tls, name))
    {
      hide Sound, Good, Keeps;
      var fails := Fails();
      if fails { return Raised(OsError(Store)); }
      if version in tls && tls[version] != Directory(map[]) { return Raised(OsError(Store)); }
      var t := (tls - {staging})[version := tls[staging]];
      assert Sound() ==> Good(t, matches) && Keeps(tls, t) by {
        if Sound() {
          SoundIsGood();
          NewVersion(tls, version, matches);
          RenameStep(tls, staging, version, matches);
        }
      }
      Become(t);
      fails := Fails();
      if fails { return Raised(OsError(Store)); }
      return DONE;
    }

    /** rmtree: the files one by one, then the directory; it may stop halfway. */
    method RemoveStaging(staging: string) returns (r: Done)
      requires Recorded() && IsScratch(staging)
      modifies this
      ensures Recorded() && old(history) <= history && (old(Sound()) ==> Sound())
      ensures Untouched(history, |old(history)|, old(Entry(tls, CURRENT)))
      ensures forall name :: name != staging ==> Entry(tls, name) == old(Entry(tls, name))
      ensures r.Returned? ==> staging !in tls
      ensures r.Raised? ==> r.failure == OsError(Store)
      ensures reliable ==> r.Returned?
    {
      hide Sound, Good, Keeps, Complete;
      var fails;
      if staging in tls {
        var files := if tls[staging].Directory? then tls[staging].files else map[];
        var left := files.Keys;
        while left != {}
          invariant Recorded() && old(history) <= history && (old(Sound()) ==> Sound())
          invariant Untouched(history, |old(history)|, old(Entry(tls, CURRENT)))
          invariant forall name :: name != staging ==> Entry(tls, name) == old(Entry(tls, name))
          decreases left
        {
          fails := Fails();
          if fails { return Raised(OsError(Store)); }
          var file :| file in left;
          left, files := left - {file}, files - {file};
          Scratch(staging, Some(Directory(files)));
        }
        fails := Fails();
        if fails { return Raised(OsError(Store)); }
        Scratch(staging, None);
      }
      return DONE;
    }

    /** The try block of publish_certificate. */
    method StageAndSwitch(cert: string, key: string, staging: string, version: string, linkToken: string)
      returns (r: Done)
      requires Recorded() && IsScratch(staging) && staging in tls
      requires IsVersion(version) && staging != LinkName(linkToken)
      modifies this
      ensures Recorded() && old(history) <= history && (old(Sound()) ==> Sound())
      ensures forall name :: VERSION <= name && name != version ==> Entry(tls, name) == old(Entry(tls, name))
      ensures r.Returned? ==> matches(cert, key) && Entry(tls, CURRENT) == Some(Link(version)) &&
                              Entry(tls, version) == Some(PairOf(cert, key)) &&
                              Entry(old(tls), version) in [None, Some(Directory(map[]))]
      ensures !matches(cert, key) ==>
        r.Raised? && Entry(tls, CURRENT) == old(Entry(tls, CURRENT)) &&
        Untouched(history, |old(history)|, old(Entry(tls, CURRENT)))
      ensures r == Raised(ManagerError(Pair)) ==>
        Entry(tls, CURRENT) == old(Entry(tls, CURRENT)) && Untouched(history, |old(history)|, old(Entry(tls, CURRENT)))
      ensures r.Raised? ==> r.failure == OsError(Store) || r.failure == ManagerError(Pair)
      ensures reliable && version !in old(tls) && LinkReady(old(tls), linkToken) ==>
        if matches(cert, key) then r.Returned? else r == Raised(ManagerError(Pair))
      ensures r.Returned? ==> forall name :: name in tls && IsScratch(name) ==> name in old(tls)
    {
      hide Sound, Good, Keeps, Complete;
      r := WritePair(cert, key, staging);
      if r.Raised? { return; }
      PairIsComplete(cert, key, matches);
      assert Entry(tls, version) == old(Entry(tls, version));
      r := RenameStaging(staging, version);
      if r.Raised? { return; }
      ghost var renamed := tls;
      ScratchNames(linkToken, linkToken);
      assert Entry(tls, LinkName(linkToken)) == old(Entry(tls, LinkName(linkToken)));
      r := SwitchToVersion(version, linkToken, Store);
      forall name | r.Returned? && name in tls && IsScratch(name) ensures name in old(tls) {
        assert Entry(renamed, name).Some? && name != version && name != staging;
      }
    }

    /** A pair that does not load and is not the one published. */
    predicate Refused(lineage: LineageFiles, t: Tls)
      requires Present(lineage)
    {
      !matches(lineage.cert.value, lineage.key.value) && !Serves(t, lineage.cert.value, lineage.key.value)
    }

    /** Reading a published file: a missing one is no error, but every other obstacle is. */
    method ReadPublished(file: string) returns (r: Outcome<Option<string>>)
      ensures r.Returned? ==> r.value == ReadCurrent(tls, file)
      ensures r.Raised? ==> r.failure == OsError(Published)
      ensures reliable && !IsOther(tls) ==> r.Returned?
      ensures IsOther(tls) ==> r.Raised?
    {
      var fails := Fails();
      if fails || IsOther(tls) { return Raised(OsError(Published)); }
      return Returned(ReadCurrent(tls, file));
    }

    /** The answer, if both reads get that far, is whether these two files are published. */
    method MatchingPublishedPair(cert: string, key: string) returns (r: Outcome<bool>)
      requires CURRENT in tls ==> Trusted(tls)
      ensures r.Returned? ==> r.value == Serves(tls, cert, key)
      ensures r.Raised? ==> r.failure == OsError(Published)
      ensures IsOther(tls) ==> r.Raised?
      ensures reliable ==> (r.Returned? <==> !IsOther(tls))
    {
      var published := ReadPublished(FULLCHAIN);
      if published.Raised? { return Raised(published.failure); }
      if published.value != Some(cert) { return Returned(false); }
      published := ReadPublished(PRIVKEY);
      if published.Raised? { return Raised(published.failure); }
      return Returned(published.value == Some(key));
    }

    /** publish_certificate from making the staging directory to removing it. */
    method PublishVersion(cert: string, key: string, token: string, linkToken: string) returns (r: Done)
      requires Recorded() && '/' !in token
      modifies this
      ensures Recorded() && old(history) <= history && (old(Sound()) ==> Sound())
      ensures r.Returned? ==> matches(cert, key) && Serves(tls, cert, key) && Switched(old(tls), tls, token, cert, key)
      ensures r.Returned? ==> Entry(old(tls), VersionName(token)) in [None, Some(Directory(map[]))]
      ensures !matches(cert, key) ==>
        r.Raised? && Entry(tls, CURRENT) == old(Entry(tls, CURRENT)) &&
        Untouched(history, |old(history)|, old(Entry(tls, CURRENT)))
      ensures r == Raised(ManagerError(Pair)) ==>
        Entry(tls, CURRENT) == old(Entry(tls, CURRENT)) && Untouched(history, |old(history)|, old(Entry(tls, CURRENT)))
      ensures r.Raised? ==> r.failure == OsError(Store) || r.failure == ManagerError(Pair)
      ensures reliable && Ready(old(tls), token, linkToken) ==>
        if matches(cert, key) then r.Returned? else r == Raised(ManagerError(Pair))
      ensures r.Returned? ==> forall name :: name in tls && IsScratch(name) ==> name in old(tls)
    {
      hide Sound, Good, Keeps, Complete;
      var staging, version := StagingName(token), VersionName(token);
      ScratchNames(token, linkToken);
      var fails := Fails();
      if fails { return Raised(OsError(Store)); }
      if staging in tls { return Raised(OsError(Store)); }
      Scratch(staging, Some(Directory(map[])));
      var staged := StageAndSwitch(cert, key, staging, version, linkToken);
      ghost var full := tls;
      var removed := RemoveStaging(staging);
      forall name | removed.Returned? && staged.Returned? && name in tls && IsScratch(name) ensures name in old(tls) {
        assert Entry(full, name).Some?;
      }
      return if removed.Raised? then removed else staged;
    }

    /** Publishing a changed lineage; the value is the version to roll back to. */
    method PublishCertificate(lineage: LineageFiles, token: string, linkToken: string)
      returns (r: Outcome<Option<string>>)
      requires Recorded() && '/' !in token
      modifies this
      ensures Recorded() && old(history) <= history && (old(Sound()) ==> Sound())
      ensures r.Returned? ==> Present(lineage) && Serves(tls, lineage.cert.value, lineage.key.value)
      ensures !Present(lineage) ==>
        r == Raised(ManagerError(Lineage)) && tls == old(tls) && history == old(history)
      // A lineage that is published already leaves everything as it is; any other becomes a new version.
      ensures Present(lineage) && Serves(old(tls), lineage.cert.value, lineage.key.value) ==>
        tls == old(tls) && history == old(history) && (r.Returned? ==> r.value.None?)
      ensures Present(lineage) && !Serves(old(tls), lineage.cert.value, lineage.key.value) && r.Returned? ==>
        Switched(old(tls), tls, token, lineage.cert.value, lineage.key.value) &&
        (old(Sound()) ==> VersionName(token) !in old(tls)) &&
        (CURRENT in old(tls) ==> r.value.Some?)
      ensures r.Returned? && r.value.Some? ==> old(Entry(tls, CURRENT)) == Some(Link(r.value.value))
      ensures r.Returned? && r.value.None? && CURRENT in old(tls) ==> Entry(tls, CURRENT) == old(Entry(tls, CURRENT))
      ensures Present(lineage) && Refused(lineage, old(tls)) ==>
        r.Raised? && Entry(tls, CURRENT) == old(Entry(tls, CURRENT)) &&
        Untouched(history, |old(history)|, old(Entry(tls, CURRENT)))
      ensures r == Raised(ManagerError(Pair)) ==>
        Entry(tls, CURRENT) == old(Entry(tls, CURRENT)) && Untouched(history, |old(history)|, old(Entry(tls, CURRENT)))
      ensures r.Raised? ==> r.failure.phase in {Lineage, Published, Pair, Store}
      ensures reliable && Ready(old(tls), token, linkToken) && old(Sound()) ==>
        if !Present(lineage) then r == Raised(ManagerError(Lineage))
        else if Refused(lineage, old(tls)) then r == Raised(ManagerError(Pair))
        else r.Returned?
      ensures r.Returned? ==> forall name :: name in tls && IsScratch(name) ==> name in old(tls)
    {
      if !Present(lineage) { return Raised(ManagerError(Lineage)); }
      var fails := Fails();
      if fails { return Raised(OsError(Lineage)); }
      var cert, key := lineage.cert.value, lineage.key.value;
      var previous := CurrentTarget();
      if previous.Raised? { return previous; }
      var same := MatchingPublishedPair(cert, key);
      if same.Raised? { return Raised(same.failure); }
      if same.value { return Returned(None); }
      var published := PublishVersion(cert, key, token, linkToken);
      if published.Raised? { return Raised(published.failure); }
      return previous;
    }

    /** What the rest of a cycle meets: its preparations, Certbot with the lineage it
        leaves behind, the live health check, and the random names. */
    method RunCycle(preparation: Done, certbot: Done, lineage: LineageFiles, health: Done,
                    token: string, linkToken: string, backToken: string) returns (r: Done)
      requires Recorded() && '/' !in token
      requires Raises(preparation, Preparing) && Raises(certbot, Certbot) && Raises(health, Health)
      modifies this
      ensures Recorded() && old(history) <= history && (old(Sound()) ==> Sound())
      // A cycle that fails before it has a lineage touches nothing.
      ensures preparation.Raised? ==> r == preparation && tls == old(tls) && history == old(history)
      ensures preparation.Returned? && certbot.Raised? && (!certbot.failure.ManagerError? || !Present(lineage)) ==>
        r == certbot && tls == old(tls) && history == old(history)
      ensures preparation.Returned? && certbot.Returned? && !Present(lineage) ==>
        r == Raised(ManagerError(Lineage)) && tls == old(tls) && history == old(history)
      // A normal return: Certbot and the live check succeeded on the pair that is published.
      ensures r.Returned? ==> certbot.Returned? && health.Returned? && Present(lineage) &&
                              Serves(tls, lineage.cert.value, lineage.key.value)
      // A lineage that is published already leaves the directory alone, whatever the live check says.
      ensures Present(lineage) && Serves(old(tls), lineage.cert.value, lineage.key.value) ==>
        tls == old(tls) && history == old(history)
      // A changed lineage is published as the new version.
      ensures r.Returned? && !Serves(old(tls), lineage.cert.value, lineage.key.value) ==>
        Switched(old(tls), tls, token, lineage.cert.value, lineage.key.value) &&
        (old(Sound()) ==> VersionName(token) !in old(tls))
      // A failed or stopped live check leaves a previous version current.
      ensures r == Raised(ManagerError(Health)) || r == Raised(StopRequested(Health)) ==>
        r == health && Present(lineage) &&
        (if CURRENT in old(tls) then Entry(tls, CURRENT) == old(Entry(tls, CURRENT))
         else Serves(tls, lineage.cert.value, lineage.key.value))
      // A live check that cannot even be started leaves the new version current.
      ensures health.Raised? && health.failure.OsError? && r == health ==>
        Present(lineage) && Serves(tls, lineage.cert.value, lineage.key.value)
      // A rejected pair never becomes current.
      ensures Present(lineage) && Refused(lineage, old(tls)) ==>
        r.Raised? && Untouched(history, |old(history)|, old(Entry(tls, CURRENT))) &&
        Entry(tls, CURRENT) == old(Entry(tls, CURRENT))
      ensures r == Raised(ManagerError(Pair)) ==>
        Entry(tls, CURRENT) == old(Entry(tls, CURRENT)) && Untouched(history, |old(history)|, old(Entry(tls, CURRENT)))
      // A Certbot failure with a usable lineage is reported after publishing it.
      ensures r == Raised(ManagerError(Certbot)) && Present(lineage) ==>
        health.Returned? && Serves(tls, lineage.cert.value, lineage.key.value)
      // With a reliable file system the outcome is the first failure of the cycle, if any.
      ensures reliable && old(Sound()) && Ready(old(tls), token, linkToken) && LinkName(backToken) !in old(tls) ==>
        if preparation.Raised? then r == preparation
        else if certbot.Raised? && (!certbot.failure.ManagerError? || !Present(lineage)) then r == certbot
        else if !Present(lineage) then r == Raised(ManagerError(Lineage))
        else if Refused(lineage, old(tls)) then r == Raised(ManagerError(Pair))
        else if health.Raised? then r == health
        else if certbot.Raised? then r == certbot
        else r.Returned?
    {
      if preparation.Raised? { return preparation; }
      var certbotFailure: Option<Failure> := None;
      if certbot.Raised? {
        if !certbot.failure.ManagerError? { return certbot; }
        certbotFailure := Some(certbot.failure);
        if !Present(lineage) { return certbot; }
      }
      var previous := PublishCertificate(lineage, token, linkToken);
      if previous.Raised? { return Raised(previous.failure); }
      if health.Raised? {
        if !health.failure.OsError? && previous.value.Some? {
          ScratchNames(backToken, backToken);
          var back := RollBack(previous.value.value, backToken, |old(history)| - 1);
          if back.Raised? { return back; }
        }
        return health;
      }
      return if certbotFailure.Some? then Raised(certbotFailure.value) else DONE;
    }

    /** Switching back to the version that was current at the recorded state `from`. */
    method RollBack(name: string, token: string, ghost from: nat) returns (r: Done)
      requires Recorded() && from < |history| && Entry(history[from], CURRENT) == Some(Link(name))
      modifies this
      ensures Recorded() && old(history) <= history && (old(Sound()) ==> Sound())
      ensures forall i :: |old(history)| <= i < |history| ==>
        Entry(history[i], CURRENT) == old(Entry(tls, CURRENT)) || Entry(history[i], CURRENT) == Some(Link(name))
      ensures r.Returned? ==> Entry(tls, CURRENT) == Some(Link(name))
      ensures r.Raised? ==> r.failure == OsError(Health)
      ensures reliable && old(LinkReady(tls, token)) ==> r.Returned?
    {
      assert Sound() ==> IsVersion(name) && name in tls by {
        if Sound() { KeptThroughout(history, matches, from, |history| - 1); }
      }
      r := SwitchToVersion(name, token, Health);
    }
  }

  /** The random names of a cycle are new, and no directory stands at `current`. */
  predicate Ready(t: Tls, token: string, linkToken: string) {
    StagingName(token) !in t && VersionName(token) !in t && LinkReady(t, linkToken)
  }

  predicate Raises(r: Done, phase: Phase) {
    r.Raised? ==> r.failure.phase == phase
  }

  /** A published version is the same in every later state. */
  lemma {:induction false} KeptThroughout(history: seq<Tls>, matches: Matcher, i: nat, j: nat)
    requires SoundHistory(history, matches) && i <= j < |history|
    ensures Keeps(history[i], history[j])
    decreases j
  {
    if i == j {
    } else {
      KeptThroughout(history, matches, i, j - 1);
    }
  }

  /** The histories of managers that each start where the one before was stopped, by a
      crash at any of its steps or otherwise. */
  ghost predicate Successive(lives: seq<seq<Tls>>, matches: Matcher) {
    (forall i :: 0 <= i < |lives| ==>
       lives[i] != [] && (Good(lives[i][0], matches) ==> SoundHistory(lives[i], matches))) &&
    (forall i :: 0 < i < |lives| ==> lives[i][0] == lives[i - 1][|lives[i - 1]| - 1])
  }

  function Joined(lives: seq<seq<Tls>>): seq<Tls> {
    if lives == [] then [] else Joined(lives[..|lives| - 1]) + lives[|lives| - 1]
  }

  /** What a crash cuts short is a sound history too. */
  lemma CutShort(history: seq<Tls>, matches: Matcher, k: nat)
    requires SoundHistory(history, matches) && k <= |history|
    ensures SoundHistory(history[..k], matches)
  {
    hide Good, Keeps;
  }

  /** What one cycle of a life meets. */
  datatype Cycle = Cycle(preparation: Done, certbot: Done, lineage: LineageFiles, health: Done,
                         token: string, linkToken: string, backToken: string)

  predicate IsCycle(c: Cycle) {
    '/' !in c.token && Raises(c.preparation, Preparing) && Raises(c.certbot, Certbot) && Raises(c.health, Health)
  }

  /** One life of the manager: it starts on the directory it finds, runs its cycles, and is
      stopped after `stop` steps of the file system, wherever that is in a cycle. */
  method Live(start: Tls, matches: Matcher, reliable: bool, cycles: seq<Cycle>, stop: nat) returns (life: seq<Tls>)
    requires forall c :: c in cycles ==> IsCycle(c)
    ensures life != [] && life[0] == start
    ensures Good(start, matches) ==> SoundHistory(life, matches)
  {
    var manager := new Manager(matches, start, reliable);
    for i := 0 to |cycles|
      invariant fresh(manager) && manager.matches == matches && manager.Recorded() && manager.history[0] == start
      invariant Good(start, matches) ==> manager.Sound()
    {
      var c := cycles[i];
      assert c in cycles;
      var _ := manager.RunCycle(c.preparation, c.certbot, c.lineage, c.health, c.token, c.linkToken, c.backToken);
    }
    var steps := if stop < |manager.history| then stop + 1 else |manager.history|;
    life := manager.history[..steps];
    if Good(start, matches) { CutShort(manager.history, matches, steps); }
  }

  /** However often the manager is stopped and started again, the directory is good at
      every step from a good one on. */
  lemma {:induction false} LivesAreSound(lives: seq<seq<Tls>>, matches: Matcher)
    requires lives != [] && Successive(lives, matches) && Good(lives[0][0], matches)
    ensures SoundHistory(Joined(lives), matches)
    ensures Joined(lives) != [] && Joined(lives)[|Joined(lives)| - 1] == lives[|lives| - 1][|lives[|lives| - 1]| - 1]
  {
    hide Good, Keeps, SoundHistory;
    var before, last := lives[..|lives| - 1], lives[|lives| - 1];
    if before == [] {
      assert Joined(lives) == last;
    } else {
      assert forall i :: 0 <= i < |before| ==> before[i] == lives[i];
      LivesAreSound(before, matches);
      SoundEnd(Joined(before), matches);
      JoinsSoundly(Joined(before), last, matches);
    }
  }

  lemma SoundEnd(history: seq<Tls>, matches: Matcher)
    requires SoundHistory(history, matches) && history != []
    ensures Good(history[|history| - 1], matches)
  {
    hide Good, Keeps;
  }

  lemma JoinsSoundly(h: seq<Tls>, last: seq<Tls>, matches: Matcher)
    requires SoundHistory(h, matches) && SoundHistory(last, matches)
    requires h != [] && last != [] && last[0] == h[|h| - 1]
    ensures SoundHistory(h + last, matches)
  {
    hide Good;
    assert Keeps(h[|h| - 1], last[0]);
    hide Keeps;
    assert forall i :: 0 <= i < |h + last| ==> (h + last)[i] == if i < |h| then h[i] else last[i - |h|];
  }

  /** The cycles of a life and the step at which it is stopped. */
  datatype Life = Life(cycles: seq<Cycle>, reliable: bool, stop: nat)

  /** However often the manager is stopped, crashes and is started again on what it left,
      the directory is good at every step and its versions never change. */
  method LiveAgain(start: Tls, matches: Matcher, plans: seq<Life>) returns (lives: seq<seq<Tls>>)
    requires plans != [] && forall plan, c :: plan in plans && c in plan.cycles ==> IsCycle(c)
    ensures |lives| == |plans| && Successive(lives, matches) && lives[0][0] == start
    ensures Good(start, matches) ==> SoundHistory(Joined(lives), matches)
  {
    lives := [];
    var left := start;
    for i := 0 to |plans|
      invariant |lives| == i && Successive(lives, matches)
      invariant if i == 0 then left == start else lives[0][0] == start && left == lives[i - 1][|lives[i - 1]| - 1]
    {
      var life := Live(left, matches, plans[i].reliable, plans[i].cycles, plans[i].stop);
      lives := lives + [life];
      left := life[|life| - 1];
    }
    if Good(start, matches) { LivesAreSound(lives, matches); }
  }
}
