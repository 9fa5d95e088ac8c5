/**
 * `doMaterializeRepo`: the content-addressed checkout cache. A workflow
 * repository `uri` at revision `tag` lives in `basedir/H(uri)/H(tag)`, where
 * H is the SHA-1 hex digest; the git commands that fill a missing entry are
 * represented only by their exit codes.
 */
module Repository {
  import opened Wrappers
  import opened Paths

  /** A SHA-1 hex digest: 40 lower-case hexadecimal characters. */
  predicate IsHexDigest(h: string) {
    |h| == 40 && forall i :: 0 <= i < |h| ==> IsHexChar(h[i])
  }

  predicate IsHexChar(c: char) {
    '0' <= c <= '9' || 'a' <= c <= 'f'
  }

  /** The per-repository directory `basedir/H(uri)`. */
  function RepoDir(basedir: string, uri: string, digest: string -> string): string {
    Join(basedir, digest(uri))
  }

  /** The per-revision checkout directory `basedir/H(uri)/H(tag)`. */
  function CacheDir(basedir: string, uri: string, tag: string, digest: string -> string): string {
    Join(RepoDir(basedir, uri, digest), digest(tag))
  }

  lemma HexDigestIsPlainName(h: string)
    requires IsHexDigest(h)
    ensures !IsAbs(h) && !EndsWithSlash(h) && h != ""
  {
    assert IsHexChar(h[0]) && IsHexChar(h[|h| - 1]);
  }

  /**
   * With hex digests the cache directory is the repository directory, a
   * slash and the revision digest: every revision of one repository shares
   * the first level.
   */
  lemma CacheDirShape(basedir: string, uri: string, tag: string, digest: string -> string)
    requires IsHexDigest(digest(uri)) && IsHexDigest(digest(tag))
    ensures CacheDir(basedir, uri, tag, digest) == RepoDir(basedir, uri, digest) + "/" + digest(tag)
    ensures RepoDir(basedir, uri, digest) <= CacheDir(basedir, uri, tag, digest)
  {
    HexDigestIsPlainName(digest(uri));
    HexDigestIsPlainName(digest(tag));
    var h := digest(uri);
    var d := RepoDir(basedir, uri, digest);
    assert d[|d| - 1] == h[|h| - 1];
    assert d != [] && !EndsWithSlash(d);
  }

  /**
   * The cache path determines both digests: two coordinates share a checkout
   * directory only when their URI digests and their revision digests agree.
   */
  lemma {:induction false} CacheDirDeterminesDigests(basedir: string, uri1: string, tag1: string,
                                                     uri2: string, tag2: string, digest: string -> string)
    requires IsHexDigest(digest(uri1)) && IsHexDigest(digest(tag1))
    requires IsHexDigest(digest(uri2)) && IsHexDigest(digest(tag2))
    requires CacheDir(basedir, uri1, tag1, digest) == CacheDir(basedir, uri2, tag2, digest)
    ensures digest(uri1) == digest(uri2) && digest(tag1) == digest(tag2)
  {
    CacheDirShape(basedir, uri1, tag1, digest);
    CacheDirShape(basedir, uri2, tag2, digest);
    HexDigestIsPlainName(digest(uri1));
    HexDigestIsPlainName(digest(uri2));
    var p := CacheDir(basedir, uri1, tag1, digest);
    var d1, d2 := RepoDir(basedir, uri1, digest), RepoDir(basedir, uri2, digest);
    assert |d1| == |d2|;
    assert p[|p| - 40..] == digest(tag1) && p[|p| - 40..] == digest(tag2);
    assert d1 == p[..|d1|] == d2;
    assert d1[|d1| - 40..] == digest(uri1) && d2[|d2| - 40..] == digest(uri2);
  }

  /** The three git commands that fill a missing cache entry, in order. */
  datatype GitStep = Clone | Checkout | SubmoduleInit

  datatype MaterializeError =
    | CannotCreateRepoDir
    | GitFailed(step: GitStep, retval: int)

  /** Exit codes of `git clone -n --recurse-submodules`, `git checkout`, `git submodule update --init`. */
  datatype GitExits = GitExits(clone: int, checkout: int, submodule: int)

  /** Outcome of a materialization and the git commands it ran. */
  datatype Materialized = Materialized(result: Result<string, MaterializeError>, ran: seq<GitStep>)

  /**
   * `doMaterializeRepo(uri, tag)`: create the repository directory when
   * missing, then trust an existing checkout directory as it is, and
   * otherwise clone, check out and initialise submodules, stopping at the
   * first failing command.
   */
  function Materialize(basedir: string, uri: string, tag: string, digest: string -> string,
                       present: string -> bool, canCreateRepoDir: bool, exits: GitExits): (m: Materialized)
    ensures m.result.Ok? ==> m.result.value == CacheDir(basedir, uri, tag, digest)
    ensures present(CacheDir(basedir, uri, tag, digest)) ==> m.ran == []
    ensures m.ran <= [Clone, Checkout, SubmoduleInit]
    ensures m.result.Ok? && m.ran != [] ==>
      m.ran == [Clone, Checkout, SubmoduleInit] && exits.clone == 0 && exits.checkout == 0 && exits.submodule == 0
    ensures m.result.Err? && m.ran != [] ==>
      var last := m.ran[|m.ran| - 1];
      m.result.error == GitFailed(last, ExitOf(exits, last)) && m.result.error.retval != 0 &&
      forall i :: 0 <= i < |m.ran| - 1 ==> ExitOf(exits, m.ran[i]) == 0
    ensures m.result.Err? && m.ran == [] <==>
      !present(RepoDir(basedir, uri, digest)) && !canCreateRepoDir
    ensures m.result.Err? && m.ran == [] ==> m.result.error == CannotCreateRepoDir
    ensures (present(RepoDir(basedir, uri, digest)) || canCreateRepoDir) && present(CacheDir(basedir, uri, tag, digest))
      ==> m == Materialized(Ok(CacheDir(basedir, uri, tag, digest)), [])
    ensures (present(RepoDir(basedir, uri, digest)) || canCreateRepoDir) && !present(CacheDir(basedir, uri, tag, digest)) &&
            exits == GitExits(0, 0, 0)
      ==> m == Materialized(Ok(CacheDir(basedir, uri, tag, digest)), [Clone, Checkout, SubmoduleInit])
    ensures m.result.Ok? <==>
      (present(RepoDir(basedir, uri, digest)) || canCreateRepoDir) &&
      (present(CacheDir(basedir, uri, tag, digest)) || exits == GitExits(0, 0, 0))
  {
    var repoDir := RepoDir(basedir, uri, digest);
    var target := CacheDir(basedir, uri, tag, digest);
    if !present(repoDir) && !canCreateRepoDir then Materialized(Err(CannotCreateRepoDir), [])
    else if present(target) then Materialized(Ok(target), [])
    else if exits.clone != 0 then Materialized(Err(GitFailed(Clone, exits.clone)), [Clone])
    else if exits.checkout != 0 then Materialized(Err(GitFailed(Checkout, exits.checkout)), [Clone, Checkout])
    else if exits.submodule != 0 then
      Materialized(Err(GitFailed(SubmoduleInit, exits.submodule)), [Clone, Checkout, SubmoduleInit])
    else Materialized(Ok(target), [Clone, Checkout, SubmoduleInit])
  }

  function ExitOf(exits: GitExits, step: GitStep): int {
    match step
    case Clone => exits.clone
    case Checkout => exits.checkout
    case SubmoduleInit => exits.submodule
  }

  /**
   * A second materialization of the same coordinates, once the first one has
   * created its directories, returns the same path and runs no git command.
   */
  lemma MaterializeIdempotent(basedir: string, uri: string, tag: string, digest: string -> string,
                              present: string -> bool, canCreateRepoDir: bool, exits: GitExits, exits2: GitExits)
    requires Materialize(basedir, uri, tag, digest, present, canCreateRepoDir, exits).result.Ok?
    ensures
      var after := (s: string) => present(s) || s == RepoDir(basedir, uri, digest) || s == CacheDir(basedir, uri, tag, digest);
      Materialize(basedir, uri, tag, digest, after, canCreateRepoDir, exits2)
        == Materialized(Ok(CacheDir(basedir, uri, tag, digest)), [])
  {
  }
}
