/**
 Image references and the tag guard (internal/pipeline/pipeline.go). References
 are compared as strings, without Docker's own normalisation.
 */
module ImageRef {
  import opened Wrappers
  import Text

  const DIGEST_PREFIX := "sha256:"

  predicate TagStart(c: char) {
    'a' <= c <= 'z' || 'A' <= c <= 'Z' || '0' <= c <= '9' || c == '_'
  }

  predicate ValidTag(tag: string) {
    && 1 <= |tag| <= 128
    && TagStart(tag[0])
    && forall i :: 1 <= i < |tag| ==> TagStart(tag[i]) || tag[i] == '.' || tag[i] == '-'
  }

  function Repository(ref: string): string {
    var at := Text.LastIndex(ref, '@');
    var bare := if at >= 0 then ref[..at] else ref;
    var slash := Text.LastIndex(bare, '/');
    var colon := Text.LastIndex(bare, ':');
    if colon > slash then bare[..colon] else bare
  }

  function TaggedRef(ref: string): string {
    if DIGEST_PREFIX <= ref then "" else ref
  }

  function RefTag(ref: string): string {
    if ref == "" || '@' in ref || DIGEST_PREFIX <= ref then ""
    else
      TagOfName(ref[Text.LastIndex(ref, '/') + 1..])
  }

  function TagOfName(name: string): string {
    var colon := Text.LastIndex(name, ':');
    if colon < 0 then ""
    else if ValidTag(name[colon + 1..]) then name[colon + 1..] else ""
  }

  /** Joining a repository and a valid tag loses neither half, up to the digest forms. */
  lemma RejoinIff(repo: string, tag: string)
    requires ValidTag(tag)
    ensures Repository(repo + [':'] + tag) == repo <==> '@' !in repo
    ensures RefTag(repo + [':'] + tag) == tag <==> '@' !in repo && !(DIGEST_PREFIX <= repo + [':'])
  {
    var ref := repo + [':'] + tag;
    TagCharacters(repo, tag);
    assert ref[..|repo|] == repo;
    if '@' in repo {
      var k :| 0 <= k < |repo| && repo[k] == '@';
      assert ref[k] == '@';
    } else {
      LastColon(ref, |repo|, tag);
      LastColonOfName(ref, |repo|, tag);
      SamePrefix(repo, tag);
    }
  }

  lemma TagCharacters(repo: string, tag: string)
    requires ValidTag(tag)
    ensures forall i :: |repo| < i < |repo + [':'] + tag| ==> (repo + [':'] + tag)[i] !in {'@', ':', '/'}
    ensures (repo + [':'] + tag)[|repo|] == ':' && (repo + [':'] + tag)[|repo| + 1..] == tag
    ensures '@' !in repo ==> '@' !in repo + [':'] + tag
  {
    var ref := repo + [':'] + tag;
    forall i | |repo| < i < |ref| ensures ref[i] !in {'@', ':', '/'} {
      assert ref[i] == tag[i - |repo| - 1];
    }
  }

  lemma LastColon(ref: string, n: nat, tag: string)
    requires n < |ref| && ref[n] == ':'
    requires forall i :: n < i < |ref| ==> ref[i] !in {'@', ':', '/'}
    ensures Text.LastIndex(ref, '/') < n == Text.LastIndex(ref, ':')
    ensures '@' !in ref ==> Repository(ref) == ref[..n]
  {
    var slash, colon, at := Text.LastIndex(ref, '/'), Text.LastIndex(ref, ':'), Text.LastIndex(ref, '@');
    assert ref[n] != '/';
  }

  lemma LastColonOfName(ref: string, n: nat, tag: string)
    requires n < |ref| && ref[n] == ':' && '@' !in ref && ref[n + 1..] == tag && ValidTag(tag)
    requires forall i :: n < i < |ref| ==> ref[i] !in {'@', ':', '/'}
    ensures RefTag(ref) == if DIGEST_PREFIX <= ref then "" else tag
  {
    LastColon(ref, n, tag);
    NameAfter(ref, Text.LastIndex(ref, '/') + 1, n);
  }

  lemma NameAfter(ref: string, m: nat, n: nat)
    requires m <= n < |ref| && ref[n] == ':' && ValidTag(ref[n + 1..])
    ensures TagOfName(ref[m..]) == ref[n + 1..]
  {
    assert ref[m..][n - m + 1..] == ref[n + 1..];
    NameColon(ref[m..], n - m);
  }

  lemma NameColon(name: string, k: nat)
    requires k < |name| && name[k] == ':' && ValidTag(name[k + 1..])
    ensures TagOfName(name) == name[k + 1..]
  {
    forall i | k < i < |name| ensures name[i] != ':' {
      assert name[i] == name[k + 1..][i - k - 1];
    }
    assert Text.LastIndex(name, ':') == k;
  }

  lemma SamePrefix(repo: string, tag: string)
    requires ValidTag(tag)
    ensures DIGEST_PREFIX <= repo + [':'] + tag <==> DIGEST_PREFIX <= repo + [':']
  {
    var ref := repo + [':'] + tag;
    if DIGEST_PREFIX <= ref {
      PrefixCharacters(ref);
      assert ref[|repo|] == ':';
    }
  }

  lemma PrefixCharacters(ref: string)
    requires DIGEST_PREFIX <= ref
    ensures forall i :: 0 <= i < 6 ==> ref[i] != ':'
  {
    forall i | 0 <= i < 6 ensures ref[i] != ':' {
      assert ref[i] == DIGEST_PREFIX[i];
    }
  }

  /** A digest after the reference does not hide its repository. */
  lemma DigestIsCut(ref: string, digest: string)
    requires '@' !in digest && '@' !in ref
    ensures Repository(ref + ['@'] + digest) == Repository(ref)
  {
    var full := ref + ['@'] + digest;
    assert full[|ref|] == '@';
    forall i | |ref| < i < |full| ensures full[i] != '@' {
      assert full[i] == digest[i - |ref| - 1];
    }
    assert full[..|ref|] == ref;
    assert Text.LastIndex(ref, '@') < 0;
  }

  /** A tag is one to 128 ASCII letters, digits, underscores, dots and hyphens, and starts with neither of the last two. */
  lemma ValidTagIff(tag: string)
    ensures ValidTag(tag) <==>
              && 0 < |tag| < 129 && tag[0] != '.' && tag[0] != '-'
              && forall i :: 0 <= i < |tag| ==>
                   var code := tag[i] as int;
                   97 <= code <= 122 || 65 <= code <= 90 || 48 <= code <= 57 || tag[i] in {'_', '.', '-'}
  {
  }

  /** A reference without a colon in its last path element is its own repository, a port further left notwithstanding. */
  lemma RepositoryWhole(ref: string)
    requires '@' !in ref && forall i :: 0 <= i < |ref| && ref[i] == ':' ==> exists k :: i < k < |ref| && ref[k] == '/'
    ensures Repository(ref) == ref
  {
    var slash, colon := Text.LastIndex(ref, '/'), Text.LastIndex(ref, ':');
    if colon >= 0 {
      var k :| colon < k < |ref| && ref[k] == '/';
    }
  }

  /** A tag comes out of a reference exactly when it is a valid one, behind the last colon of a reference without a digest. */
  lemma RefTagIff(ref: string, tag: string)
    requires tag != ""
    ensures RefTag(ref) == tag <==> ValidTag(tag) && '@' !in ref && !("sha256:" <= ref) && EndsInTag(ref, tag)
  {
    if EndsInTag(ref, tag) && ValidTag(tag) && '@' !in ref {
      TagCharacters(ref[..|ref| - |tag| - 1], tag);
      LastColonOfName(ref, |ref| - |tag| - 1, tag);
    }
    if RefTag(ref) == tag { TagEnds(ref, tag); }
  }

  ghost predicate EndsInTag(ref: string, tag: string) {
    |tag| < |ref| && ref == ref[..|ref| - |tag| - 1] + [':'] + tag
  }

  lemma TagEnds(ref: string, tag: string)
    requires tag != "" && RefTag(ref) == tag
    ensures ValidTag(tag) && EndsInTag(ref, tag)
  {
    var from := Text.LastIndex(ref, '/') + 1;
    var name := ref[from..];
    assert TagOfName(name) == tag;
    NameEnds(name, tag);
    EndAfter(ref, from, name, tag);
  }

  lemma EndAfter(ref: string, from: nat, name: string, tag: string)
    requires from <= |ref| && name == ref[from..]
    requires |tag| < |name| && name[|name| - |tag| - 1] == ':' && name[|name| - |tag|..] == tag
    ensures EndsInTag(ref, tag)
  {
    var n := |ref| - |tag| - 1;
    assert ref[n] == ':' && ref[n + 1..] == tag;
    SplitAt(ref, n);
  }

  lemma NameEnds(name: string, tag: string)
    requires tag != "" && TagOfName(name) == tag
    ensures ValidTag(tag) && |tag| < |name| && name[|name| - |tag| - 1] == ':' && name[|name| - |tag|..] == tag
  {
  }

  lemma SplitAt(s: string, n: nat)
    requires n < |s|
    ensures s == s[..n] + [s[n]] + s[n + 1..]
  {
  }

  // -------------------------------------------------------------- tag guard

  predicate Wanted(services: seq<string>, service: string) {
    services == [] || service in services
  }

  datatype Refusal =
    | Unresolved
    | NoImageWithoutTag(service: string)
    | MovesRepository(service: string)

  /** Why one wanted service stops a tag, if it does. */
  function Objection(base: map<string, string>, desired: map<string, string>, service: string): Option<Refusal>
    requires service in desired
  {
    if service !in base then Some(NoImageWithoutTag(service))
    else if Repository(base[service]) != Repository(desired[service]) then Some(MovesRepository(service))
    else None
  }

  /** What the guard promises: with a tag in play, every wanted service keeps its repository. */
  ghost predicate TagOnlyChangesTheTag(services: seq<string>, desired: map<string, string>,
                                       base: Option<map<string, string>>) {
    && base.Some?
    && forall s :: s in desired && Wanted(services, s) ==>
         s in base.value && Repository(base.value[s]) == Repository(desired[s])
  }

  /**
   The guard walks the resolved services in no particular order. Its verdict is
   the promise above, whatever the order, and a refusal names a real offender.
   `base` is None when the stack does not resolve without the tag.
   */
  method TagGuard(takesTag: bool, tag: string, services: seq<string>, desired: map<string, string>,
                  base: Option<map<string, string>>) returns (refusal: Option<Refusal>)
    ensures refusal.None? <==> !takesTag || tag == "" || TagOnlyChangesTheTag(services, desired, base)
    ensures refusal.Some? && base.Some? ==>
              exists s :: s in desired && Wanted(services, s) && Objection(base.value, desired, s) == refusal
    ensures refusal == Some(Unresolved) <==> takesTag && tag != "" && base.None?
  {
    if !takesTag || tag == "" { return None; }
    if base.None? { return Some(Unresolved); }
    var left := desired.Keys;
    while left != {}
      invariant left <= desired.Keys
      invariant forall s :: s in desired && s !in left && Wanted(services, s) ==> Objection(base.value, desired, s) == None
    {
      var svc :| svc in left;
      left := left - {svc};
      if Wanted(services, svc) {
        refusal := Objection(base.value, desired, svc);
        if refusal.Some? {
          assert svc in desired;
          return;
        }
      }
    }
    refusal := None;
    forall s | s in desired && Wanted(services, s)
      ensures s in base.value && Repository(base.value[s]) == Repository(desired[s])
    {
      assert Objection(base.value, desired, s) == None;
    }
  }

  /** A compose file that pins `repo:${TAG}` with a default accepts any valid tag. */
  lemma PinnedRepositoryPasses(services: seq<string>, repos: map<string, string>, oldTag: string, newTag: string,
                               base: map<string, string>, desired: map<string, string>)
    requires ValidTag(oldTag) && ValidTag(newTag)
    requires forall s :: s in repos ==> '@' !in repos[s]
    requires base == map s | s in repos :: repos[s] + [':'] + oldTag
    requires desired == map s | s in repos :: repos[s] + [':'] + newTag
    ensures TagOnlyChangesTheTag(services, desired, Some(base))
  {
    forall s | s in desired ensures Repository(base[s]) == Repository(desired[s]) {
      RejoinIff(repos[s], oldTag);
      RejoinIff(repos[s], newTag);
    }
  }

  /** A compose file whose whole image is the variable is refused once the tag names another repository. */
  lemma WholeImageVariableIsRefused(services: seq<string>, s: string, tag: string,
                                    base: map<string, string>, desired: map<string, string>)
    requires ValidTag(tag) && s in base && s in desired && Wanted(services, s) && desired[s] == tag
    requires Repository(base[s]) != tag
    ensures !TagOnlyChangesTheTag(services, desired, Some(base))
  {
    forall i | 0 <= i < |tag| ensures tag[i] !in {'@', ':', '/'} {}
    assert Text.LastIndex(tag, '@') < 0 && Text.LastIndex(tag, ':') < 0;
    assert Repository(tag) == tag;
  }
}
