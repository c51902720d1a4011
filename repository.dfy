/**
 * The repository-name check of the handler: `full_name.split('/')`, with the
 * first two segments taken as owner and repository, and a name refused when
 * either of them is empty or missing.
 */
module Repository {
  import opened Wrappers

  /** The separator between owner and repository in a full name. */
  const Slash: char := '/'

  /** Owner and repository, as the handler destructures them from the split name. */
  datatype RepoRef = RepoRef(owner: string, repo: string)

  /** The inverse of `Split`: the parts glued together with `sep` between neighbours. */
  function Join(parts: seq<string>, sep: char): string
    requires |parts| >= 1
  {
    if |parts| == 1 then parts[0] else parts[0] + [sep] + Join(parts[1..], sep)
  }

  /** Gluing a character onto the front of the first part puts it at the front of the whole. */
  lemma JoinCons(c: char, parts: seq<string>, sep: char)
    requires |parts| >= 1
    ensures Join([[c] + parts[0]] + parts[1..], sep) == [c] + Join(parts, sep)
  {
    var q := [[c] + parts[0]] + parts[1..];
    assert q[1..] == parts[1..];
  }

  /**
   * `String.prototype.split` with a one-character separator: the maximal
   * separator-free pieces of `s`, in order, including empty ones (an empty
   * string gives one empty piece).
   */
  function Split(s: string, sep: char): (parts: seq<string>)
    ensures |parts| >= 1
    ensures forall k :: 0 <= k < |parts| ==> sep !in parts[k]
    ensures Join(parts, sep) == s
  {
    if s == [] then [""]
    else
      var rest := Split(s[1..], sep);
      if s[0] == sep then
        assert ([""] + rest)[1..] == rest;
        [""] + rest
      else
        JoinCons(s[0], rest, sep);
        [[s[0]] + rest[0]] + rest[1..]
  }

  /** A separator-free string is one piece. */
  lemma {:induction false} SplitPiece(p: string, sep: char)
    requires sep !in p
    ensures Split(p, sep) == [p]
  {
    if p != [] {
      SplitPiece(p[1..], sep);
    }
  }

  /** A separator-free prefix followed by the separator is the first piece; the rest splits on its own. */
  lemma {:induction false} SplitAfterPiece(p: string, sep: char, t: string)
    requires sep !in p
    ensures Split(p + [sep] + t, sep) == [p] + Split(t, sep)
  {
    var s := p + [sep] + t;
    if p == [] {
      assert s[1..] == t;
    } else {
      assert s[0] == p[0] && p[0] != sep;
      assert s[1..] == p[1..] + [sep] + t;
      SplitAfterPiece(p[1..], sep, t);
      var rest := Split(s[1..], sep);
      assert rest[0] == p[1..] && rest[1..] == Split(t, sep);
      assert [p[0]] + p[1..] == p;
    }
  }

  /** `Split` undoes `Join` on separator-free parts, so the two are inverse. */
  lemma {:induction false} SplitJoin(parts: seq<string>, sep: char)
    requires |parts| >= 1
    requires forall k :: 0 <= k < |parts| ==> sep !in parts[k]
    ensures Split(Join(parts, sep), sep) == parts
  {
    if |parts| == 1 {
      SplitPiece(parts[0], sep);
    } else {
      SplitJoin(parts[1..], sep);
      SplitAfterPiece(parts[0], sep, Join(parts[1..], sep));
    }
  }

  /** A string of the form `owner/repo` or `owner/repo/rest` with non-empty, slash-free owner and repo. */
  ghost predicate NamesRepository(name: string, r: RepoRef) {
    r.owner != [] && r.repo != [] && Slash !in r.owner && Slash !in r.repo
    && (name == r.owner + [Slash] + r.repo
        || exists rest :: name == r.owner + [Slash] + r.repo + [Slash] + rest)
  }

  /**
   * Lines 100-106: `const [owner, repo] = full_name.split('/')`, refused when
   * `!owner || !repo`, that is when the first piece is empty or the second is
   * empty or missing. Any pieces after the second are ignored.
   */
  function OwnerAndRepo(name: string): (r: Option<RepoRef>)
    ensures r.Some? ==> NamesRepository(name, r.value)
  {
    var parts := Split(name, Slash);
    if parts[0] == [] || |parts| < 2 || parts[1] == [] then None
    else
      assert name == parts[0] + [Slash] + Join(parts[1..], Slash);
      assert |parts| > 2 ==> name == parts[0] + [Slash] + parts[1] + [Slash] + Join(parts[2..], Slash) by {
        if |parts| > 2 {
          assert parts[1..][1..] == parts[2..];
        }
      }
      Some(RepoRef(parts[0], parts[1]))
  }

  /** Every name of the accepted form is accepted, with its own owner and repo. */
  lemma OwnerAndRepoComplete(name: string, r: RepoRef)
    requires NamesRepository(name, r)
    ensures OwnerAndRepo(name) == Some(r)
  {
    if name == r.owner + [Slash] + r.repo {
      SplitPiece(r.repo, Slash);
      SplitAfterPiece(r.owner, Slash, r.repo);
      OwnerAndRepoOfPieces(name, r);
    } else {
      var rest :| name == r.owner + [Slash] + r.repo + [Slash] + rest;
      OwnerAndRepoWithRest(r, rest);
    }
  }

  /** Pieces after the repository do not change the result. */
  lemma OwnerAndRepoWithRest(r: RepoRef, rest: string)
    requires r.owner != [] && r.repo != [] && Slash !in r.owner && Slash !in r.repo
    ensures OwnerAndRepo(r.owner + [Slash] + r.repo + [Slash] + rest) == Some(r)
  {
    var name := r.owner + [Slash] + r.repo + [Slash] + rest;
    SplitAfterPiece(r.repo, Slash, rest);
    assert name == r.owner + [Slash] + (r.repo + [Slash] + rest);
    SplitAfterPiece(r.owner, Slash, r.repo + [Slash] + rest);
    OwnerAndRepoOfPieces(name, r);
  }

  /** The check reads only the first two pieces of the split. */
  lemma OwnerAndRepoOfPieces(name: string, r: RepoRef)
    requires r.owner != [] && r.repo != []
    requires |Split(name, Slash)| >= 2 && Split(name, Slash)[..2] == [r.owner, r.repo]
    ensures OwnerAndRepo(name) == Some(r)
  {
    assert Split(name, Slash)[0] == Split(name, Slash)[..2][0];
    assert Split(name, Slash)[1] == Split(name, Slash)[..2][1];
  }

  /** A name is refused exactly when it has none of the accepted forms. */
  lemma OwnerAndRepoRefused(name: string)
    ensures OwnerAndRepo(name).None? <==> forall r :: !NamesRepository(name, r)
  {
    forall r | NamesRepository(name, r)
      ensures OwnerAndRepo(name).Some?
    {
      OwnerAndRepoComplete(name, r);
    }
  }

  /** `a/b/c` is accepted as owner `a` and repository `b`. */
  lemma ExtraSegmentsIgnored()
    ensures OwnerAndRepo("a/b/c") == Some(RepoRef("a", "b"))
  {
    assert "a/b/c" == "a" + [Slash] + "b" + [Slash] + "c";
    OwnerAndRepoComplete("a/b/c", RepoRef("a", "b"));
  }

  /** A name without a slash, or with an empty owner or repo, is refused. */
  lemma MalformedNamesRefused()
    ensures OwnerAndRepo("ab").None?
    ensures OwnerAndRepo("/b").None?
    ensures OwnerAndRepo("a/").None?
    ensures OwnerAndRepo("a//b").None?
  {
  }
}
