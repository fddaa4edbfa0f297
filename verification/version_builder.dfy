/** The version-history importer: rebuild a file's versions from a list of
    remote version descriptors. Each descriptor's URI is fetched with HTTP
    basic authentication, each becomes one stored version carrying the
    descriptor's label and creation time, and the file ends up with the last
    descriptor's content and creation time. Without configured credentials
    the build fails before fetching anything. */
module VersionImport {

  newtype Byte = x: int | 0 <= x < 256
  type Bytes = seq<Byte>
  type Uri = string

  datatype Option<T> = None | Some(value: T)

  /** One remote version to import: where it is, when it was created, its label. */
  datatype Descriptor = Descriptor(uri: Uri, created: string, versionLabel: string)

  /** The basic-authentication pair used for every fetch. */
  datatype Credentials = Credentials(user: string, password: string)

  /** One authenticated fetch the builder makes. */
  datatype Request = Request(uri: Uri, basicAuth: Credentials)

  /** A stored version of the file. */
  datatype Version = Version(versionLabel: string, dateCreated: string, content: Bytes)

  /** The observable state of the file the versions are built on. */
  datatype FileState = FileState(versions: seq<Version>, content: Bytes, dateCreated: seq<string>)

  datatype BuildError = CredentialsNotConfigured

  datatype Result<T> = Success(value: T) | Failure(error: BuildError)

  /** The credentials, when both the user name and the password are configured. */
  function ConfiguredCredentials(user: Option<string>, password: Option<string>): (r: Option<Credentials>)
    ensures r.Some? <==> user.Some? && password.Some?
    ensures r.Some? ==> r.value.user == user.value && r.value.password == password.value
  {
    if user.Some? && password.Some? then Some(Credentials(user.value, password.value)) else None
  }

  /** The version stored for one descriptor. */
  function VersionOf(d: Descriptor, creds: Credentials, fetch: (Uri, Credentials) -> Bytes): Version
  {
    Version(d.versionLabel, d.created, fetch(d.uri, creds))
  }

  /** The versions stored for a descriptor list, oldest first. */
  function StoredVersions(ds: seq<Descriptor>, creds: Credentials, fetch: (Uri, Credentials) -> Bytes): (vs: seq<Version>)
    ensures |vs| == |ds|
    ensures forall k :: 0 <= k < |ds| ==>
      vs[k].versionLabel == ds[k].versionLabel && vs[k].dateCreated == ds[k].created && vs[k].content == fetch(ds[k].uri, creds)
  {
    if ds == [] then []
    else StoredVersions(ds[..|ds| - 1], creds, fetch) + [VersionOf(ds[|ds| - 1], creds, fetch)]
  }

  /** The fetches made for a descriptor list, in order. */
  function Requests(ds: seq<Descriptor>, creds: Credentials): (rs: seq<Request>)
    ensures |rs| == |ds|
    ensures forall k :: 0 <= k < |ds| ==> rs[k].uri == ds[k].uri && rs[k].basicAuth == creds
  {
    if ds == [] then []
    else Requests(ds[..|ds| - 1], creds) + [Request(ds[|ds| - 1].uri, creds)]
  }

  /** The file after storing one fetched version. */
  function StoreVersion(s: FileState, d: Descriptor, creds: Credentials, fetch: (Uri, Credentials) -> Bytes): FileState
  {
    FileState(s.versions + [VersionOf(d, creds, fetch)], fetch(d.uri, creds), [d.created])
  }

  /** The file after storing every descriptor's version in order. */
  function Replay(s: FileState, ds: seq<Descriptor>, creds: Credentials, fetch: (Uri, Credentials) -> Bytes): FileState
  {
    if ds == [] then s
    else StoreVersion(Replay(s, ds[..|ds| - 1], creds, fetch), ds[|ds| - 1], creds, fetch)
  }

  /** What `build` does to the file, or why it fails. */
  function Build(s: FileState, user: Option<string>, password: Option<string>, ds: seq<Descriptor>,
                 fetch: (Uri, Credentials) -> Bytes): Result<FileState>
  {
    match ConfiguredCredentials(user, password)
    case None => Failure(CredentialsNotConfigured)
    case Some(creds) => Success(Replay(s, ds, creds, fetch))
  }

  function Labels(vs: seq<Version>): seq<string>
  {
    seq(|vs|, k requires 0 <= k < |vs| => vs[k].versionLabel)
  }

  function DescriptorLabels(ds: seq<Descriptor>): seq<string>
  {
    seq(|ds|, k requires 0 <= k < |ds| => ds[k].versionLabel)
  }

  function VersionDates(vs: seq<Version>): seq<string>
  {
    seq(|vs|, k requires 0 <= k < |vs| => vs[k].dateCreated)
  }

  function DescriptorDates(ds: seq<Descriptor>): seq<string>
  {
    seq(|ds|, k requires 0 <= k < |ds| => ds[k].created)
  }

  /** Replaying appends exactly one version per descriptor, in order, and
      keeps the versions already there. */
  lemma {:induction false} ReplayVersions(s: FileState, ds: seq<Descriptor>, creds: Credentials, fetch: (Uri, Credentials) -> Bytes)
    ensures Replay(s, ds, creds, fetch).versions == s.versions + StoredVersions(ds, creds, fetch)
  {
    if ds == [] {
      assert s.versions + [] == s.versions;
    } else {
      var init := ds[..|ds| - 1];
      ReplayVersions(s, init, creds, fetch);
      assert s.versions + StoredVersions(init, creds, fetch) + [VersionOf(ds[|ds| - 1], creds, fetch)]
          == s.versions + (StoredVersions(init, creds, fetch) + [VersionOf(ds[|ds| - 1], creds, fetch)]);
    }
  }

  /** Replaying a non-empty list leaves the last descriptor's bytes and
      creation time on the file, not the time of the import. */
  lemma ReplayEndsOnLast(s: FileState, ds: seq<Descriptor>, creds: Credentials, fetch: (Uri, Credentials) -> Bytes)
    requires |ds| > 0
    ensures Replay(s, ds, creds, fetch).content == fetch(ds[|ds| - 1].uri, creds)
    ensures Replay(s, ds, creds, fetch).dateCreated == [ds[|ds| - 1].created]
  {
  }

  /** `build` fails exactly when the user name or the password is not
      configured. */
  lemma BuildFailsWithoutCredentials(s: FileState, user: Option<string>, password: Option<string>,
                                     ds: seq<Descriptor>, fetch: (Uri, Credentials) -> Bytes)
    ensures Build(s, user, password, ds, fetch).Failure? <==> user.None? || password.None?
  {
  }

  /** The outcome the import test checks, for a file with no versions yet:
      one version per descriptor, labels and creation times equal to the
      descriptors' as multisets, and the last descriptor's content and
      creation time on the file. */
  lemma BuildCreatesVersions(s: FileState, user: string, password: string,
                             ds: seq<Descriptor>, fetch: (Uri, Credentials) -> Bytes)
    requires s.versions == [] && |ds| > 0
    ensures Build(s, Some(user), Some(password), ds, fetch).Success?
    ensures var r := Build(s, Some(user), Some(password), ds, fetch).value;
      && |r.versions| == |ds|
      && multiset(Labels(r.versions)) == multiset(DescriptorLabels(ds))
      && multiset(VersionDates(r.versions)) == multiset(DescriptorDates(ds))
      && r.content == fetch(ds[|ds| - 1].uri, Credentials(user, password))
      && r.dateCreated == [ds[|ds| - 1].created]
  {
    var creds := Credentials(user, password);
    var r := Replay(s, ds, creds, fetch);
    ReplayVersions(s, ds, creds, fetch);
    assert r.versions == StoredVersions(ds, creds, fetch);
    assert Labels(r.versions) == DescriptorLabels(ds);
    assert VersionDates(r.versions) == DescriptorDates(ds);
    ReplayEndsOnLast(s, ds, creds, fetch);
  }

  /** The file set's original file: its stored versions, current content and
      creation date. */
  class OriginalFile {
    var versions: seq<Version>
    var content: Bytes
    var dateCreated: seq<string>

    constructor ()
      ensures versions == [] && content == [] && dateCreated == []
    {
      versions := [];
      content := [];
      dateCreated := [];
    }

    function State(): FileState
      reads this
    {
      FileState(versions, content, dateCreated)
    }

    /** Store fetched bytes as a new version and make them the current
        content, dated by the descriptor, not by the clock. */
    method AddVersion(bytes: Bytes, versionLabel: string, created: string)
      modifies this
      ensures versions == old(versions) + [Version(versionLabel, created, bytes)]
      ensures content == bytes && dateCreated == [created]
    {
      versions := versions + [Version(versionLabel, created, bytes)];
      content := bytes;
      dateCreated := [created];
    }
  }

  /** The importer. Its credentials come from configuration; `requests`
      records every authenticated fetch it has made. */
  class VersionBuilder {
    const sufia6User: Option<string>
    const sufia6Password: Option<string>
    var requests: seq<Request>

    constructor (sufia6User: Option<string>, sufia6Password: Option<string>)
      ensures this.sufia6User == sufia6User && this.sufia6Password == sufia6Password
      ensures requests == []
    {
      this.sufia6User := sufia6User;
      this.sufia6Password := sufia6Password;
      requests := [];
    }

    method BuildVersions(file: OriginalFile, ds: seq<Descriptor>, fetch: (Uri, Credentials) -> Bytes) returns (r: Result<()>)
      modifies this, file
      ensures r.Failure? <==> sufia6User.None? || sufia6Password.None?
      ensures r.Failure? ==> file.State() == old(file.State()) && requests == old(requests)
      ensures Build(old(file.State()), sufia6User, sufia6Password, ds, fetch)
           == (if r.Failure? then Failure(r.error) else Success(file.State()))
      ensures r.Success? ==>
        requests == old(requests) + Requests(ds, Credentials(sufia6User.value, sufia6Password.value))
    {
      if sufia6User.None? || sufia6Password.None? {
        return Failure(CredentialsNotConfigured);
      }
      var creds := Credentials(sufia6User.value, sufia6Password.value);
      ghost var s0 := file.State();
      ghost var log0 := requests;
      var i := 0;
      while i < |ds|
        invariant 0 <= i <= |ds|
        invariant file.State() == Replay(s0, ds[..i], creds, fetch)
        invariant requests == log0 + Requests(ds[..i], creds)
      {
        assert ds[..i + 1][..i] == ds[..i];
        var bytes := fetch(ds[i].uri, creds);
        requests := requests + [Request(ds[i].uri, creds)];
        file.AddVersion(bytes, ds[i].versionLabel, ds[i].created);
        i := i + 1;
      }
      assert ds[..|ds|] == ds;
      return Success(());
    }
  }
}
