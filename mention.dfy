/**
 * The bot-mention pattern of the comment trigger,
 *   /@argus-ai-assistant\s+(review|skip)(?:\s+(security|performance|style))?/i,
 * as a hand-written scanner, with the regular expression's own meaning stated
 * beside it as a reference: a match at one index is a split of the text into
 * the handle, a whitespace run, a command word and an optional whitespace run
 * and scope word, and `String.prototype.match` reports the leftmost index that
 * has one. Capture groups are spans of the comment; their text is cut out and
 * lowered only at the end, as the handler does.
 *
 * The scanner and its proofs are written for any pattern of the shape
 * `handle\s+(c1|...)(?:\s+(s1|...))?` whose alternatives form a word list;
 * `MentionPattern` is the handler's instance.
 */
module Mention {
  import opened Wrappers
  import opened Text

  /** A pattern `handle\s+(commands)(?:\s+(scopes))?`, matched ignoring ASCII letter case. */
  datatype Pattern = Pattern(handle: string, commands: seq<string>, scopes: seq<string>)

  /** The alternatives of the first capture group, in the order the pattern tries them. */
  const Commands: seq<string> := ["review", "skip"]
  /** The alternatives of the optional second capture group, in pattern order. */
  const Scopes: seq<string> := ["security", "performance", "style"]
  /** The handler's pattern (src/handlers/webhook.ts:122-123). */
  const MentionPattern: Pattern := Pattern("@argus-ai-assistant", Commands, Scopes)
  /** The review type used when the comment names no scope. */
  const DefaultScope: string := "full"

  /** The part `s[start..end]` of the comment that a capture group covers. */
  datatype Span = Span(start: nat, end: nat)

  /** The capture groups of one match: the command word and, if present, the scope word. */
  datatype Groups = Groups(command: Span, scope: Option<Span>)

  /** The command and review type the handler derives from a match. */
  datatype Command = Command(name: string, reviewType: string)

  /**
   * A list of alternatives whose words are non-empty, start with a lower-case
   * letter and are never a prefix of one another, so at most one of them can
   * match at any index.
   */
  predicate WordList(words: seq<string>) {
    (forall x :: 0 <= x < |words| ==> |words[x]| > 0 && IsLowerLetter(words[x][0]))
    && (forall x, y :: 0 <= x < |words| && 0 <= y < |words| && x != y ==> !(words[x] <= words[y]))
  }

  predicate WellFormed(p: Pattern) {
    WordList(p.commands) && WordList(p.scopes)
  }

  lemma MentionPatternWellFormed()
    ensures WellFormed(MentionPattern)
  {
    assert Commands[0] == "review" && Commands[1] == "skip";
    forall x, y | 0 <= x < 2 && 0 <= y < 2 && x != y
      ensures !(Commands[x] <= Commands[y])
    {
      assert Commands[x][0] != Commands[y][0];
    }
    assert Scopes[0] == "security" && Scopes[1] == "performance" && Scopes[2] == "style";
    forall x, y | 0 <= x < 3 && 0 <= y < 3 && x != y
      ensures !(Scopes[x] <= Scopes[y])
    {
      assert Scopes[x][0] != Scopes[y][0] || Scopes[x][1] != Scopes[y][1];
    }
  }

  /** Alternative number `x` of `words` matches at `b`. */
  predicate AlternativeAt(s: string, b: nat, words: seq<string>, x: nat) {
    x < |words| && CiWordAt(s, b, words[x])
  }

  /** `sp` covers one of `words`, in any letter case. */
  ghost predicate WordSpan(s: string, sp: Span, words: seq<string>) {
    exists x: nat :: AlternativeAt(s, sp.start, words, x) && sp.end == sp.start + |words[x]|
  }

  /** `s[a..sp.start]` is a non-empty whitespace run (one `\s+`) and `sp` covers one of `words`. */
  ghost predicate SpacedWordSpan(s: string, a: nat, sp: Span, words: seq<string>) {
    a < sp.start <= sp.end <= |s| && AllWhitespace(s, a, sp.start) && WordSpan(s, sp, words)
  }

  /** The optional group `(?:\s+(scopes))?` at `e` is greedy: it is taken whenever it can match. */
  ghost predicate ScopeMatches(p: Pattern, s: string, e: nat, scope: Option<Span>) {
    match scope
    case Some(sp) => SpacedWordSpan(s, e, sp, p.scopes)
    case None => forall sp :: !SpacedWordSpan(s, e, sp, p.scopes)
  }

  /** Reference meaning of the pattern: it matches at `i`, with capture groups `g`. */
  ghost predicate Matches(p: Pattern, s: string, i: nat, g: Groups) {
    CiWordAt(s, i, p.handle)
    && SpacedWordSpan(s, i + |p.handle|, g.command, p.commands)
    && ScopeMatches(p, s, g.command.end, g.scope)
  }

  /** The first alternative from number `x` on that matches at `b`, as an alternation tries them. */
  function FirstAlternative(s: string, b: nat, words: seq<string>, x: nat): (r: Option<nat>)
    requires x <= |words|
    ensures r.Some? ==> x <= r.value && AlternativeAt(s, b, words, r.value)
    ensures r.None? ==> forall y: nat :: x <= y ==> !AlternativeAt(s, b, words, y)
    decreases |words| - x
  {
    if x == |words| then None
    else if CiWordAt(s, b, words[x]) then Some(x)
    else FirstAlternative(s, b, words, x + 1)
  }

  /** In a word list at most one alternative matches at an index. */
  lemma AlternativeUnique(s: string, b: nat, words: seq<string>, x: nat, y: nat)
    requires WordList(words)
    requires AlternativeAt(s, b, words, x) && AlternativeAt(s, b, words, y)
    ensures x == y
  {
  }

  /** `\s+` and then one of `words`, scanned greedily from `a`: the span of the word. */
  function SpacedWord(s: string, a: nat, words: seq<string>): (r: Option<Span>)
    requires a <= |s|
    ensures r.Some? ==> r.value.end <= |s|
  {
    var n := WhitespaceRun(s, a);
    if n == 0 then None
    else
      match FirstAlternative(s, a + n, words, 0)
      case None => None
      case Some(x) => Some(Span(a + n, a + n + |words[x]|))
  }

  /** What the greedy scan reports is a whitespace run followed by a word. */
  lemma SpacedWordSound(s: string, a: nat, words: seq<string>)
    requires a <= |s| && SpacedWord(s, a, words).Some?
    ensures SpacedWordSpan(s, a, SpacedWord(s, a, words).value, words)
  {
    var x := FirstAlternative(s, a + WhitespaceRun(s, a), words, 0).value;
    assert AlternativeAt(s, SpacedWord(s, a, words).value.start, words, x);
  }

  /** Every whitespace-then-word split at `a` is the one the greedy scan reports. */
  lemma SpacedWordComplete(s: string, a: nat, sp: Span, words: seq<string>)
    requires a <= |s| && WordList(words)
    requires SpacedWordSpan(s, a, sp, words)
    ensures SpacedWord(s, a, words) == Some(sp)
  {
    var x: nat :| AlternativeAt(s, sp.start, words, x) && sp.end == sp.start + |words[x]|;
    assert LowerChar(s[sp.start + 0]) == words[x][0];
    LetterIsNotWhitespace(s[sp.start]);
    assert !WhitespaceAt(s, sp.start);
    WhitespaceRunUnique(s, a, sp.start - a);
    var y := FirstAlternative(s, sp.start, words, 0).value;
    AlternativeUnique(s, sp.start, words, x, y);
  }

  /** At most one span of the optional group's meaning holds at `e`. */
  lemma ScopeMatchesUnique(p: Pattern, s: string, e: nat, scope: Option<Span>)
    requires WellFormed(p) && e <= |s|
    requires ScopeMatches(p, s, e, scope)
    ensures SpacedWord(s, e, p.scopes) == scope
  {
    match scope
    case Some(sp) =>
      SpacedWordComplete(s, e, sp, p.scopes);
    case None =>
      if SpacedWord(s, e, p.scopes).Some? {
        SpacedWordSound(s, e, p.scopes);
        assert false;
      }
  }

  /** The pattern anchored at index `i`, as the regular-expression engine tries it there. */
  function MatchAt(p: Pattern, s: string, i: nat): (r: Option<Groups>)
    requires i <= |s|
    ensures r.Some? ==> r.value.command.end <= |s|
    ensures r.Some? && r.value.scope.Some? ==> r.value.scope.value.end <= |s|
  {
    if !CiWordAt(s, i, p.handle) then None
    else
      match SpacedWord(s, i + |p.handle|, p.commands)
      case None => None
      case Some(cmd) => Some(Groups(cmd, SpacedWord(s, cmd.end, p.scopes)))
  }

  /** The greedy scan of the optional group reports what the group's meaning demands. */
  lemma ScopeScanSound(p: Pattern, s: string, e: nat)
    requires WellFormed(p) && e <= |s|
    ensures ScopeMatches(p, s, e, SpacedWord(s, e, p.scopes))
  {
    if SpacedWord(s, e, p.scopes).Some? {
      SpacedWordSound(s, e, p.scopes);
    } else {
      forall sp | SpacedWordSpan(s, e, sp, p.scopes)
        ensures false
      {
        SpacedWordComplete(s, e, sp, p.scopes);
      }
    }
  }

  /** What the scanner reports is a match of the pattern. */
  lemma MatchAtSound(p: Pattern, s: string, i: nat, g: Groups)
    requires WellFormed(p) && i <= |s| && MatchAt(p, s, i) == Some(g)
    ensures Matches(p, s, i, g)
  {
    var a := i + |p.handle|;
    MatchAtParts(p, s, i);
    var cmd := SpacedWord(s, a, p.commands).value;
    assert g == Groups(cmd, SpacedWord(s, cmd.end, p.scopes));
    SpacedWordSound(s, a, p.commands);
    ScopeScanSound(p, s, cmd.end);
    MatchesOf(p, s, i, g);
  }

  /** A match of the pattern, assembled from its three parts. */
  lemma MatchesOf(p: Pattern, s: string, i: nat, g: Groups)
    requires CiWordAt(s, i, p.handle)
    requires SpacedWordSpan(s, i + |p.handle|, g.command, p.commands)
    requires ScopeMatches(p, s, g.command.end, g.scope)
    ensures Matches(p, s, i, g)
  {
  }

  /** A match the scanner reports at `i` is made of its handle test and its two word scans. */
  lemma MatchAtParts(p: Pattern, s: string, i: nat)
    requires i <= |s| && MatchAt(p, s, i).Some?
    ensures CiWordAt(s, i, p.handle) && i + |p.handle| <= |s|
    ensures SpacedWord(s, i + |p.handle|, p.commands).Some?
    ensures var cmd := SpacedWord(s, i + |p.handle|, p.commands).value;
            cmd.end <= |s| && MatchAt(p, s, i) == Some(Groups(cmd, SpacedWord(s, cmd.end, p.scopes)))
  {
  }

  /** Every match of the pattern at `i` is the one the scanner reports. */
  lemma MatchAtComplete(p: Pattern, s: string, i: nat, g: Groups)
    requires WellFormed(p) && i <= |s| && Matches(p, s, i, g)
    ensures MatchAt(p, s, i) == Some(g)
  {
    SpacedWordComplete(s, i + |p.handle|, g.command, p.commands);
    ScopeMatchesUnique(p, s, g.command.end, g.scope);
    MatchAtOf(p, s, i, g);
  }

  /** The scanner's result at `i`, from the results of its two word scans. */
  lemma MatchAtOf(p: Pattern, s: string, i: nat, g: Groups)
    requires i <= |s| && CiWordAt(s, i, p.handle)
    requires SpacedWord(s, i + |p.handle|, p.commands) == Some(g.command)
    requires g.command.end <= |s| && SpacedWord(s, g.command.end, p.scopes) == g.scope
    ensures MatchAt(p, s, i) == Some(g)
  {
  }

  /** The scanner agrees with the pattern's meaning at every index, in both directions. */
  lemma MatchAtIff(p: Pattern, s: string, i: nat, g: Groups)
    requires WellFormed(p) && i <= |s|
    ensures MatchAt(p, s, i) == Some(g) <==> Matches(p, s, i, g)
  {
    if MatchAt(p, s, i) == Some(g) {
      MatchAtSound(p, s, i, g);
    }
    if Matches(p, s, i, g) {
      MatchAtComplete(p, s, i, g);
    }
  }

  /**
   * The index from which `String.prototype.match`, with a non-global pattern,
   * reports its match: the leftmost index from `i` on where the pattern matches.
   */
  function FirstMatchIndex(p: Pattern, s: string, i: nat): (r: Option<nat>)
    requires i <= |s|
    ensures r.Some? ==> i <= r.value <= |s| && MatchAt(p, s, r.value).Some?
    ensures forall j :: i <= j <= |s| && (r.None? || j < r.value) ==> MatchAt(p, s, j).None?
    decreases |s| - i
  {
    if MatchAt(p, s, i).Some? then Some(i)
    else if i == |s| then None
    else FirstMatchIndex(p, s, i + 1)
  }

  /** Where the scanner reports nothing, the pattern does not match. */
  lemma NoMatchAt(p: Pattern, s: string, j: nat, g: Groups)
    requires WellFormed(p) && j <= |s| && MatchAt(p, s, j).None?
    ensures !Matches(p, s, j, g)
  {
    if Matches(p, s, j, g) {
      MatchAtComplete(p, s, j, g);
    }
  }

  /**
   * The search finds a match exactly when the pattern matches somewhere in the
   * text, and the one it finds is a match at the leftmost such index.
   */
  lemma FirstMatchLeftmost(p: Pattern, s: string)
    requires WellFormed(p)
    ensures FirstMatchIndex(p, s, 0).Some? ==>
              var k := FirstMatchIndex(p, s, 0).value;
              Matches(p, s, k, MatchAt(p, s, k).value)
              && forall j, g :: 0 <= j < k ==> !Matches(p, s, j, g)
    ensures FirstMatchIndex(p, s, 0).None? <==> forall k, g :: 0 <= k <= |s| ==> !Matches(p, s, k, g)
  {
    var r := FirstMatchIndex(p, s, 0);
    if r.Some? {
      MatchAtSound(p, s, r.value, MatchAt(p, s, r.value).value);
      forall j, g | 0 <= j < r.value
        ensures !Matches(p, s, j, g)
      {
        NoMatchAt(p, s, j, g);
      }
    } else {
      forall k, g | 0 <= k <= |s|
        ensures !Matches(p, s, k, g)
      {
        NoMatchAt(p, s, k, g);
      }
    }
  }

  /**
   * `comment.match(mentionPattern)`: the capture groups of the leftmost match,
   * if any. They cover one of the commands and, if present, one of the scopes.
   */
  function ParseMention(comment: string): (r: Option<Groups>)
    ensures r.Some? ==> WordSpan(comment, r.value.command, Commands)
    ensures r.Some? && r.value.scope.Some? ==> WordSpan(comment, r.value.scope.value, Scopes)
  {
    MentionPatternWellFormed();
    FirstMatchLeftmost(MentionPattern, comment);
    match FirstMatchIndex(MentionPattern, comment, 0)
    case None => None
    case Some(k) => MatchAt(MentionPattern, comment, k)
  }

  /** The text a capture group covers. */
  function GroupText(s: string, sp: Span): string
    requires sp.start <= sp.end <= |s|
  {
    s[sp.start..sp.end]
  }

  /** The text of a span that covers one of `words`, lowered, is that word. */
  lemma LowerOfWordSpan(s: string, sp: Span, words: seq<string>)
    requires WordSpan(s, sp, words)
    ensures sp.start <= sp.end <= |s| && Lower(GroupText(s, sp)) in words
  {
    var x: nat :| AlternativeAt(s, sp.start, words, x) && sp.end == sp.start + |words[x]|;
    LowerOfCiWord(s, sp.start, words[x]);
  }

  /** The second group lowered, or `full` when the match has no scope group. */
  function ReviewType(s: string, scope: Option<Span>): (r: string)
    requires scope.Some? ==> WordSpan(s, scope.value, Scopes)
    ensures r == DefaultScope || r in Scopes
    ensures scope.None? ==> r == DefaultScope
    ensures scope.Some? ==> r == Lower(GroupText(s, scope.value))
  {
    match scope
    case None => DefaultScope
    case Some(sp) =>
      LowerOfWordSpan(s, sp, Scopes);
      Lower(GroupText(s, sp))
  }

  /**
   * Lines 124-132: the command is the first group lowered, the review type the
   * second group lowered, or `full` when the comment names no scope.
   */
  function ParseCommand(comment: string): (r: Option<Command>)
    ensures r.Some? <==> ParseMention(comment).Some?
    ensures r.Some? ==> r.value.name in Commands
    ensures r.Some? ==> r.value.reviewType == DefaultScope || r.value.reviewType in Scopes
  {
    match ParseMention(comment)
    case None => None
    case Some(g) =>
      LowerOfWordSpan(comment, g.command, Commands);
      Some(Command(Lower(GroupText(comment, g.command)), ReviewType(comment, g.scope)))
  }

  /** `match` reports the leftmost match of the pattern's meaning. */
  lemma LeftmostMentionFound(c: string, k: nat, g: Groups)
    requires Matches(MentionPattern, c, k, g)
    requires forall j, h :: 0 <= j < k ==> !Matches(MentionPattern, c, j, h)
    ensures ParseMention(c) == Some(g)
  {
    var p := MentionPattern;
    MentionPatternWellFormed();
    MatchAtComplete(p, c, k, g);
    FirstMatchLeftmost(p, c);
    var r := FirstMatchIndex(p, c, 0);
    assert r.Some? && r.value >= k;
    assert r.value == k;
  }

  /** A group covering alternative `x` of a word list lowers to exactly that word. */
  lemma GroupWord(c: string, sp: Span, words: seq<string>, x: nat)
    requires WordList(words) && WordSpan(c, sp, words) && AlternativeAt(c, sp.start, words, x)
    ensures sp.start <= sp.end <= |c| && Lower(GroupText(c, sp)) == words[x]
  {
    var x': nat :| AlternativeAt(c, sp.start, words, x') && sp.end == sp.start + |words[x']|;
    AlternativeUnique(c, sp.start, words, x, x');
    LowerOfCiWord(c, sp.start, words[x]);
  }

  /** The command built from the groups of a mention. */
  lemma ParseCommandOf(c: string, g: Groups)
    requires ParseMention(c) == Some(g)
    ensures g.command.start <= g.command.end <= |c|
    ensures ParseCommand(c) == Some(Command(Lower(GroupText(c, g.command)), ReviewType(c, g.scope)))
  {
  }

  /**
   * What a comment parses to, read off the leftmost match of the pattern's
   * meaning: the command is the alternative the first group spells, and the
   * review type is the scope the second group spells, or `full` without one.
   */
  lemma LeftmostMentionParsed(c: string, k: nat, g: Groups, x: nat)
    requires Matches(MentionPattern, c, k, g)
    requires forall j, h :: 0 <= j < k ==> !Matches(MentionPattern, c, j, h)
    requires AlternativeAt(c, g.command.start, Commands, x)
    ensures ParseMention(c) == Some(g)
    ensures ParseCommand(c).Some? && ParseCommand(c).value.name == Commands[x]
    ensures g.scope.None? ==> ParseCommand(c).value.reviewType == DefaultScope
    ensures forall y: nat :: g.scope.Some? && AlternativeAt(c, g.scope.value.start, Scopes, y) ==>
              ParseCommand(c).value.reviewType == Scopes[y]
  {
    MentionPatternWellFormed();
    LeftmostMentionFound(c, k, g);
    ParseCommandOf(c, g);
    GroupWord(c, g.command, Commands, x);
    if g.scope.Some? {
      forall y: nat | AlternativeAt(c, g.scope.value.start, Scopes, y)
        ensures ParseCommand(c).value.reviewType == Scopes[y]
      {
        GroupWord(c, g.scope.value, Scopes, y);
      }
    }
  }

  /** A comment that asks for a security review. */
  const SecurityReviewComment: string := "@argus-ai-assistant review security"

  lemma SecurityReviewHandle(s: string)
    requires s == SecurityReviewComment
    ensures CiWordAt(s, 0, MentionPattern.handle)
  {
  }

  lemma SecurityReviewCommandScan(s: string)
    requires s == SecurityReviewComment
    ensures SpacedWord(s, 19, Commands) == Some(Span(20, 26))
  {
    WhitespaceRunUnique(s, 19, 1);
    assert CiWordAt(s, 20, Commands[0]);
  }

  lemma SecurityReviewScopeScan(s: string)
    requires s == SecurityReviewComment
    ensures SpacedWord(s, 26, Scopes) == Some(Span(27, 35))
  {
    WhitespaceRunUnique(s, 26, 1);
    assert CiWordAt(s, 27, Scopes[0]);
  }

  /** `@argus-ai-assistant review security` asks for a security review. */
  lemma SecurityReviewExample(s: string)
    requires s == SecurityReviewComment
    ensures ParseCommand(s) == Some(Command("review", "security"))
  {
    var g := Groups(Span(20, 26), Some(Span(27, 35)));
    SecurityReviewHandle(s);
    SecurityReviewCommandScan(s);
    SecurityReviewScopeScan(s);
    MatchAtOf(MentionPattern, s, 0, g);
    MentionPatternWellFormed();
    MatchAtSound(MentionPattern, s, 0, g);
    LeftmostMentionParsed(s, 0, g, 0);
    assert AlternativeAt(s, 27, Scopes, 0);
  }

  /** A comment in which the command runs on into a longer word, in mixed case. */
  const RunOnComment: string := "@Argus-AI-Assistant reviewer"

  lemma RunOnHandle(s: string)
    requires s == RunOnComment
    ensures CiWordAt(s, 0, MentionPattern.handle)
  {
  }

  lemma RunOnCommandScan(s: string)
    requires s == RunOnComment
    ensures SpacedWord(s, 19, Commands) == Some(Span(20, 26))
  {
    WhitespaceRunUnique(s, 19, 1);
    assert CiWordAt(s, 20, Commands[0]);
  }

  lemma RunOnScopeScan(s: string)
    requires s == RunOnComment
    ensures SpacedWord(s, 26, Scopes) == None
  {
    assert !WhitespaceAt(s, 26);
  }

  /**
   * The pattern has no word boundary: `reviewer` still starts the `review`
   * command, and, with no whitespace after it, the review type is `full`.
   */
  lemma RunOnCommandMatches(s: string)
    requires s == RunOnComment
    ensures ParseCommand(s) == Some(Command("review", DefaultScope))
  {
    var g := Groups(Span(20, 26), None);
    RunOnHandle(s);
    RunOnCommandScan(s);
    RunOnScopeScan(s);
    MatchAtOf(MentionPattern, s, 0, g);
    MentionPatternWellFormed();
    MatchAtSound(MentionPattern, s, 0, g);
    LeftmostMentionParsed(s, 0, g, 0);
  }
}
