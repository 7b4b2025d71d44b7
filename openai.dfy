/**
 * The story-generation helper of src/lib/openai.ts: the per-age-group
 * guidelines and label, the character-name instruction, and the parsing of
 * the model's raw reply into a title and a story body.
 *
 * The title is found with the regular expression `/TITLE:\s*(.+?)(?:\n|---)/`.
 * It is modelled here as the search a backtracking matcher performs for that
 * one expression: start positions left to right; at each one `\s*` takes the
 * longest run of white space and gives it back one character at a time; for
 * each choice the lazy `(.+?)` grows one non-line-terminator at a time until
 * `\n` or `---` follows.
 */
module OpenAI {
  import opened Wrappers
  import opened Strings

  datatype AgeGroup = Toddler | Preschool | EarlyReader | ChapterBook

  /** The age group's name as the API and the prompt spell it. */
  function AgeGroupName(a: AgeGroup): string {
    match a
    case Toddler => "TODDLER"
    case Preschool => "PRESCHOOL"
    case EarlyReader => "EARLY_READER"
    case ChapterBook => "CHAPTER_BOOK"
  }

  /** `ageGroup.replace("_", " ")`: the name as shown in the system prompt. */
  function AgeGroupLabel(a: AgeGroup): (shown: string)
    ensures shown == ReplaceAll(AgeGroupName(a), '_', ' ')
    ensures '_' !in shown
  {
    match a
    case Toddler =>
      ReplaceFirstAbsent("TODDLER", '_', ' ');
      ReplaceAllAbsent("TODDLER", '_', ' ');
      ReplaceFirst(AgeGroupName(a), '_', ' ')
    case Preschool =>
      ReplaceFirstAbsent("PRESCHOOL", '_', ' ');
      ReplaceAllAbsent("PRESCHOOL", '_', ' ');
      ReplaceFirst(AgeGroupName(a), '_', ' ')
    case EarlyReader =>
      assert AgeGroupName(a) == "EARLY" + "_" + "READER";
      ReplaceFirstAt("EARLY", '_', "READER", ' ');
      ReplaceAllAt("EARLY", '_', "READER", ' ');
      ReplaceFirst(AgeGroupName(a), '_', ' ')
    case ChapterBook =>
      assert AgeGroupName(a) == "CHAPTER" + "_" + "BOOK";
      ReplaceFirstAt("CHAPTER", '_', "BOOK", ' ');
      ReplaceAllAt("CHAPTER", '_', "BOOK", ' ');
      ReplaceFirst(AgeGroupName(a), '_', ' ')
  }

  const StoryLengthLabel := "Story length: "

  /** The length asked of a story, growing with the age group. */
  function StoryLength(a: AgeGroup): string {
    match a
    case Toddler => "200-300 words"
    case Preschool => "400-600 words"
    case EarlyReader => "600-900 words"
    case ChapterBook => "900-1200 words"
  }

  /** Each age group is asked for a length of its own. */
  lemma StoryLengthsDiffer(a: AgeGroup, b: AgeGroup)
    requires a != b
    ensures StoryLength(a) != StoryLength(b)
  {
    // The lengths already differ in their first digit.
    assert StoryLength(a)[0] != StoryLength(b)[0];
  }

  /** The writing guidelines given for each age group, one entry per bullet. */
  function Guidelines(a: AgeGroup): (bullets: seq<string>)
    ensures |bullets| == 6
    ensures bullets[4] == StoryLengthLabel + StoryLength(a)
  {
    match a
    case Toddler => [
      "Use very simple words (1-2 syllables)",
      "Short sentences (5-7 words max)",
      "Lots of repetition and rhythm",
      "Focus on familiar objects, animals, and daily routines",
      StoryLengthLabel + StoryLength(a),
      "Include onomatopoeia and sound words"]
    case Preschool => [
      "Simple vocabulary with some new words",
      "Sentences of 8-12 words",
      "Clear cause and effect",
      "Include fantasy elements, talking animals, simple adventures",
      StoryLengthLabel + StoryLength(a),
      "Gentle conflict with happy resolution"]
    case EarlyReader => [
      "Varied vocabulary with context clues for new words",
      "Mix of short and medium sentences",
      "Character development and emotions",
      "Can include mild suspense and humor",
      StoryLengthLabel + StoryLength(a),
      "Clear beginning, middle, and end"]
    case ChapterBook => [
      "Rich vocabulary appropriate for 7-10 year olds",
      "Complex sentences with varied structure",
      "Multi-dimensional characters",
      "Can handle more complex emotions and themes",
      StoryLengthLabel + StoryLength(a),
      "Can include subplots and twists"]
  }

  /** The double quote character, U+0022. */
  const DoubleQuote: char := '\U{22}'
  const NamedCharacterOpening := "The main character or a friend should be named " + [DoubleQuote]
  const GenericCharacter := "Create a relatable main character with a friendly name."

  /**
   * The instruction about the hero's name: it quotes the child's name when one
   * is given and non-empty, and asks for a made-up name otherwise.
   */
  function NameInstruction(childName: Option<string>): (r: string)
    ensures childName.None? || childName.value == "" ==> r == GenericCharacter
    ensures childName.Some? && childName.value != "" ==>
      StartsWith(r, NamedCharacterOpening) && OccursAt(r, [DoubleQuote] + childName.value + [DoubleQuote], |NamedCharacterOpening| - 1)
  {
    if childName.Some? && childName.value != "" then
      var r := NamedCharacterOpening + childName.value + [DoubleQuote, '.'];
      assert r[..|NamedCharacterOpening|] == NamedCharacterOpening;
      assert r[|NamedCharacterOpening| - 1..|NamedCharacterOpening| + |childName.value| + 1] == [DoubleQuote] + childName.value + [DoubleQuote];
      r
    else GenericCharacter
  }

  // ---------------------------------------------------------------------------
  // Title: /TITLE:\s*(.+?)(?:\n|---)/
  // ---------------------------------------------------------------------------

  const TitleMarker := "TITLE:"
  const Separator := "---"
  const DefaultTitle := "A Magical Story"

  predicate NoLineTerminator(s: string) {
    forall i :: 0 <= i < |s| ==> !IsLineTerminator(s[i])
  }

  /** `s[from..to]` holds no line terminator. */
  predicate LineFree(s: string, from: nat, to: nat)
    requires from <= to <= |s|
  {
    NoLineTerminator(s[from..to])
  }

  /** `(?:\n|---)` matches at position `e` of `s`. */
  predicate TerminatorAt(s: string, e: nat) {
    (e < |s| && s[e] == '\n') || OccursAt(s, Separator, e)
  }

  /** A capture group's bounds: `s[start..end]`. */
  datatype Capture = Capture(start: nat, end: nat)

  /**
   * The lazy `(.+?)` that has already taken `s[g..e]`: the first end, from `e`
   * on, where the terminator follows, growing only over non-line-terminators.
   */
  function LazyGroupEnd(s: string, g: nat, e: nat): (r: Option<nat>)
    requires g < e <= |s| && NoLineTerminator(s[g..e])
    ensures r.Some? ==> e <= r.value <= |s| && TerminatorAt(s, r.value) && LineFree(s, g, r.value)
    ensures r.Some? ==> forall x :: e <= x < r.value ==> !TerminatorAt(s, x)
    decreases |s| - e
  {
    if TerminatorAt(s, e) then Some(e)
    else if e < |s| && !IsLineTerminator(s[e]) then
      assert s[g..e + 1] == s[g..e] + [s[e]];
      LazyGroupEnd(s, g, e + 1)
    else None
  }

  /** `(.+?)(?:\n|---)` tried with the group starting at `g`. */
  function GroupAt(s: string, g: nat): (r: Option<nat>)
    requires g <= |s|
    ensures r.Some? ==> g < r.value <= |s| && LineFree(s, g, r.value)
  {
    if g < |s| && !IsLineTerminator(s[g]) then LazyGroupEnd(s, g, g + 1) else None
  }

  /** `\s*` backtracking: it has given back all but `k` white-space characters after `q`. */
  function Backtrack(s: string, q: nat, k: nat): (r: Option<Capture>)
    requires q + k <= |s|
    ensures r.Some? ==> q <= r.value.start < r.value.end <= |s|
    ensures r.Some? ==> LineFree(s, r.value.start, r.value.end)
    decreases k
  {
    match GroupAt(s, q + k)
    case Some(e) => Some(Capture(q + k, e))
    case None => if k == 0 then None else Backtrack(s, q, k - 1)
  }

  /** The whole expression tried at start position `p`. */
  function MatchAt(s: string, p: nat): (r: Option<Capture>)
    requires p <= |s|
    ensures r.Some? ==> OccursAt(s, TitleMarker, p)
    ensures r.Some? ==> r.value.start < r.value.end <= |s| && LineFree(s, r.value.start, r.value.end)
  {
    if OccursAt(s, TitleMarker, p) then
      var q := p + |TitleMarker|;
      Backtrack(s, q, SpaceRunLength(s[q..]))
    else None
  }

  /** The leftmost start position, from `p` on, where the expression matches. */
  function FirstMatchFrom(s: string, p: nat): (r: Option<Capture>)
    requires p <= |s|
    ensures r.Some? ==> r.value.start < r.value.end <= |s| && LineFree(s, r.value.start, r.value.end)
    ensures (forall i :: p <= i <= |s| ==> !OccursAt(s, TitleMarker, i)) ==> r.None?
    decreases |s| - p
  {
    var m := MatchAt(s, p);
    if m.Some? then m
    else if p == |s| then None
    else FirstMatchFrom(s, p + 1)
  }

  /**
   * The story title: the trimmed capture of the first match, or "A Magical
   * Story" when nothing matches. It never spans a line.
   */
  function Title(s: string): (title: string)
    ensures NoLineTerminator(title)
    ensures !Contains(s, TitleMarker) ==> title == DefaultTitle
  {
    match FirstMatchFrom(s, 0)
    case Some(c) =>
      var group := s[c.start..c.end];
      TrimKeepsCharacters(group);
      Trim(group)
    case None => DefaultTitle
  }

  lemma TrimKeepsCharacters(s: string)
    ensures forall i :: 0 <= i < |Trim(s)| ==> Trim(s)[i] in s
  {
    var i, j := TrimIsMiddle(s);
    forall x | 0 <= x < |Trim(s)| ensures Trim(s)[x] in s {
      assert Trim(s)[x] == s[i + x];
    }
  }

  // ---------------------------------------------------------------------------
  // Content
  // ---------------------------------------------------------------------------

  /** Length of the longest prefix of `s` without a line terminator: what a dot-star pattern takes. */
  function LineLength(s: string): (k: nat)
    ensures k <= |s| && LineFree(s, 0, k)
    ensures k < |s| ==> IsLineTerminator(s[k])
  {
    if s == [] || IsLineTerminator(s[0]) then 0 else 1 + LineLength(s[1..])
  }

  /**
   * `s[p..c]` is what `TITLE:.*\n?` takes at `p`: the marker, the rest of
   * its line, and the `\n` that ends the line when that is what ends it.
   */
  predicate TitleLineAt(s: string, p: nat, c: nat) {
    && OccursAt(s, TitleMarker, p)
    && p + |TitleMarker| <= c <= |s|
    && (|| (LineFree(s, p + |TitleMarker|, c) && (c == |s| || (IsLineTerminator(s[c]) && s[c] != '\n')))
        || (p + |TitleMarker| < c && s[c - 1] == '\n' && LineFree(s, p + |TitleMarker|, c - 1)))
  }

  /** Inside a line-free stretch there is no line terminator. */
  lemma LineFreeAt(s: string, from: nat, to: nat, x: nat)
    requires from <= x < to <= |s| && LineFree(s, from, to)
    ensures !IsLineTerminator(s[x])
  {
    assert s[from..to][x - from] == s[x];
  }

  /** A line starting at `q` ends at one place: the first line terminator, or the end of `s`. */
  lemma LineEndUnique(s: string, q: nat, e1: nat, e2: nat)
    requires q <= e1 <= |s| && q <= e2 <= |s|
    requires LineFree(s, q, e1) && (e1 < |s| ==> IsLineTerminator(s[e1]))
    requires LineFree(s, q, e2) && (e2 < |s| ==> IsLineTerminator(s[e2]))
    ensures e1 == e2
  {
    if e1 < e2 {
      LineFreeAt(s, q, e2, e1);
    } else if e2 < e1 {
      LineFreeAt(s, q, e1, e2);
    }
  }

  /** Where the title line at `p` that ends at `c` has its line end. */
  function TitleLineEnd(s: string, p: nat, c: nat): (e: nat)
    requires TitleLineAt(s, p, c)
    ensures p + |TitleMarker| <= e <= c && LineFree(s, p + |TitleMarker|, e)
    ensures e < |s| ==> IsLineTerminator(s[e])
    ensures e == c || (e == c - 1 && s[e] == '\n')
    ensures e == c ==> c == |s| || s[c] != '\n'
  {
    var q := p + |TitleMarker|;
    if q < c && s[c - 1] == '\n' && LineFree(s, q, c - 1) then c - 1 else c
  }

  /** A marker has one title line. */
  lemma TitleLineUnique(s: string, p: nat, c: nat, d: nat)
    requires TitleLineAt(s, p, c) && TitleLineAt(s, p, d)
    ensures c == d
  {
    var q := p + |TitleMarker|;
    var ec := TitleLineEnd(s, p, c);
    var ed := TitleLineEnd(s, p, d);
    LineEndUnique(s, q, ec, ed);
  }

  /**
   * `s.replace(/TITLE:.*\n?/, "")`: the first marker and the rest of its line
   * are cut out, together with the `\n` that ends the line, if that is what
   * ends it.
   */
  function RemoveTitleLine(s: string): (r: string)
    ensures !Contains(s, TitleMarker) ==> r == s
    ensures Contains(s, TitleMarker) ==> |r| < |s|
    ensures IndexOf(s, TitleMarker).Some? ==>
      exists c: nat :: TitleLineAt(s, IndexOf(s, TitleMarker).value, c) && r == s[..IndexOf(s, TitleMarker).value] + s[c..]
  {
    match IndexOf(s, TitleMarker)
    case None => s
    case Some(p) =>
      var q := p + |TitleMarker|;
      var k := LineLength(s[q..]);
      var e := q + k;
      var cut := if e < |s| && s[e] == '\n' then e + 1 else e;
      assert s[q..][0..k] == s[q..e];
      assert e < |s| ==> s[q..][k] == s[e];
      assert TitleLineAt(s, p, cut);
      s[..p] + s[cut..]
  }

  /**
   * The story body: everything after the first `---`, trimmed; without a
   * `---`, the reply minus its title line, trimmed.
   */
  function Content(s: string): (content: string)
    ensures content == [] || (!IsSpace(content[0]) && !IsSpace(content[|content| - 1]))
    ensures IndexOf(s, Separator).Some? ==> content == Trim(s[IndexOf(s, Separator).value + |Separator|..])
    ensures IndexOf(s, Separator).None? ==> content == Trim(RemoveTitleLine(s))
    ensures !Contains(s, Separator) && !Contains(s, TitleMarker) ==> content == Trim(s)
  {
    match IndexOf(s, Separator)
    case Some(i) => Trim(s[i + |Separator|..])
    case None => Trim(RemoveTitleLine(s))
  }

  datatype StoryText = StoryText(title: string, content: string)

  /**
   * `generateStory`'s result from the reply's message content (`None` when
   * the reply has no choice or no content, which the source reads as "").
   */
  function ParseStory(reply: Option<string>): (story: StoryText)
    ensures NoLineTerminator(story.title)
    ensures reply.None? ==> story == StoryText(DefaultTitle, "")
  {
    var s := reply.GetOr("");
    assert s == [] ==> !Contains(s, TitleMarker) && !Contains(s, Separator);
    StoryText(Title(s), Content(s))
  }

  /** An empty reply gives the default title and an empty body. */
  lemma ParseEmptyReply()
    ensures ParseStory(Some("")) == StoryText(DefaultTitle, "")
  {
    assert !Contains("", TitleMarker) && !Contains("", Separator);
    assert Trim("") == "";
  }

  // ---------------------------------------------------------------------------
  // What the parser takes from a reply in any layout
  // ---------------------------------------------------------------------------

  /** `TITLE:` cannot overlap itself, so a marker right after a marker-free `pre` is the first one. */
  lemma MarkerAfter(pre: string, tail: string)
    requires !Contains(pre, TitleMarker) && OccursAt(tail, TitleMarker, 0)
    ensures IndexOf(pre + tail, TitleMarker) == Some(|pre|)
  {
    var s := pre + tail;
    var m := |TitleMarker|;
    assert s[|pre|..|pre| + m] == tail[..m];
    assert s[|pre|] == 'T' && s[|pre| + 1] == 'I' by {
      assert tail[..m][0] == 'T' && tail[..m][1] == 'I';
    }
    forall i | 0 <= i < |pre| ensures !OccursAt(s, TitleMarker, i) {
      if i + m <= |pre| {
        assert s[i..i + m] == pre[i..i + m];
        assert !OccursAt(pre, TitleMarker, i);
      } else {
        var d := |pre| - i;
        assert s[i..i + m][d] == 'T';
        if d == 2 {
          assert s[i..i + m][3] == 'I' != TitleMarker[3];
        }
      }
    }
    IndexOfFirst(s, TitleMarker, |pre|);
  }

  /** Start positions without a marker are passed over. */
  lemma {:induction false} FirstMatchSkips(s: string, i: nat, p: nat)
    requires i <= p <= |s|
    requires forall j :: i <= j < p ==> !OccursAt(s, TitleMarker, j)
    ensures FirstMatchFrom(s, i) == FirstMatchFrom(s, p)
    ensures MatchAt(s, p).Some? ==> FirstMatchFrom(s, i) == MatchAt(s, p)
    decreases p - i
  {
    if i < p {
      FirstMatchSkips(s, i + 1, p);
    }
  }

  /** The lazy group stops at the first terminator it meets. */
  lemma {:induction false} LazyGroupEndFinds(s: string, g: nat, e: nat, end: nat)
    requires g < e <= end < |s| && NoLineTerminator(s[g..e])
    requires forall x :: e <= x < end ==> !TerminatorAt(s, x) && !IsLineTerminator(s[x])
    requires TerminatorAt(s, end)
    ensures LazyGroupEnd(s, g, e) == Some(end)
    decreases end - e
  {
    if e < end {
      assert s[g..e + 1] == s[g..e] + [s[e]];
      LazyGroupEndFinds(s, g, e + 1, end);
    }
  }

  /**
   * What may end a plain title `t` at position `e`: a `\n`, or `---` when `t`
   * does not end in `-` (otherwise `---` would start inside `t`).
   */
  predicate TitleEndsAt(s: string, t: string, e: nat) {
    && e < |s|
    && (s[e] == '\n' || (OccursAt(s, Separator, e) && t != [] && t[|t| - 1] != '-'))
  }

  /** A plain title followed by its terminator, starting at `g`, is what the group takes at `g`. */
  lemma GroupAtTitle(s: string, g: nat, t: string)
    requires PlainTitle(t) && g + |t| <= |s| && s[g..g + |t|] == t && TitleEndsAt(s, t, g + |t|)
    ensures GroupAt(s, g) == Some(g + |t|)
  {
    var end := g + |t|;
    forall x | g + 1 <= x < end ensures !TerminatorAt(s, x) && !IsLineTerminator(s[x]) {
      TitleCharNotTerminator(s, g, t, x);
    }
    assert s[g..end][0] == s[g];
    assert s[g..g + 1] == [t[0]];
    LazyGroupEndFinds(s, g, g + 1, end);
  }

  /** No character of a plain title followed by its terminator starts a terminator. */
  lemma TitleCharNotTerminator(s: string, g: nat, t: string, x: nat)
    requires PlainTitle(t) && g + |t| <= |s| && s[g..g + |t|] == t && TitleEndsAt(s, t, g + |t|)
    requires g <= x < g + |t|
    ensures !TerminatorAt(s, x) && !IsLineTerminator(s[x])
  {
    var end := g + |t|;
    assert s[g..end][x - g] == s[x];
    if x + |Separator| <= end {
      SliceWithin(s, g, t, x - g, x - g + |Separator|);
      assert !OccursAt(t, Separator, x - g);
    } else if x + |Separator| <= |s| {
      // A character that is not `-` lies within the three from `x`.
      var k := if s[end] == '\n' then end else end - 1;
      assert s[g..end][|t| - 1] == s[end - 1];
      assert s[k] != '-';
      assert s[x..x + |Separator|][k - x] == s[k];
    }
  }

  /** The expression at the first marker `p`: white space up to `g`, then a plain title and its terminator. */
  lemma MatchAtTitle(s: string, p: nat, g: nat, t: string)
    requires OccursAt(s, TitleMarker, p)
    requires PlainTitle(t) && p + |TitleMarker| <= g && g + |t| <= |s|
    requires AllSpace(s[p + |TitleMarker|..g]) && s[g..g + |t|] == t && TitleEndsAt(s, t, g + |t|)
    ensures MatchAt(s, p) == Some(Capture(g, g + |t|))
  {
    var q := p + |TitleMarker|;
    assert s[g..g + |t|][0] == s[g];
    SpaceRunTo(s, q, g);
    GroupAtTitle(s, g, t);
  }

  /** The same as a title: the first marker at `p`, white space up to `g`, then a plain title and its terminator. */
  lemma TitleAt(s: string, p: nat, g: nat, t: string)
    requires IndexOf(s, TitleMarker) == Some(p)
    requires PlainTitle(t) && p + |TitleMarker| <= g && g + |t| <= |s|
    requires AllSpace(s[p + |TitleMarker|..g]) && s[g..g + |t|] == t && TitleEndsAt(s, t, g + |t|)
    ensures Title(s) == t
  {
    var c := Capture(g, g + |t|);
    MatchAtTitle(s, p, g, t);
    FirstMatchSkips(s, 0, p);
    TitleOfMatch(s, c);
    TrimOfTrimmed(t);
  }

  /** The title is the trimmed capture of the first match. */
  lemma TitleOfMatch(s: string, c: Capture)
    requires FirstMatchFrom(s, 0) == Some(c)
    ensures c.start < c.end <= |s| && Title(s) == Trim(s[c.start..c.end])
  {
  }

  /** Where the parts of `pre + "TITLE:" + ws + t + "\n" + rest` sit. */
  lemma TitleLineParts(pre: string, ws: string, t: string, rest: string)
    ensures var s := pre + TitleMarker + ws + t + "\n" + rest;
      var g := |pre| + |TitleMarker| + |ws|;
      && s == pre + (TitleMarker + (ws + t + "\n" + rest))
      && s[|pre| + |TitleMarker|..g] == ws && g + |t| < |s| && s[g..g + |t|] == t && s[g + |t|] == '\n'
  {
    var marked := pre + TitleMarker;
    var spaced := marked + ws;
    MiddleOf(marked, ws, t + "\n" + rest);
    MiddleOf(spaced, t, "\n" + rest);
  }

  /** A marker right after marker-free text is the first marker, whatever follows it. */
  lemma MarkerAfterText(pre: string, more: string)
    requires !Contains(pre, TitleMarker)
    ensures IndexOf(pre + (TitleMarker + more), TitleMarker) == Some(|pre|)
  {
    assert (TitleMarker + more)[..|TitleMarker|] == TitleMarker;
    MarkerAfter(pre, TitleMarker + more);
  }

  /**
   * The title is what follows the first `TITLE:` and the white space after
   * it, up to the end of its line: `pre + "TITLE:" + ws + t + "\n" + rest`
   * has title `t` whenever `pre` holds no marker and `t` is a plain title.
   */
  lemma TitleAfterMarker(pre: string, ws: string, t: string, rest: string)
    requires !Contains(pre, TitleMarker) && AllSpace(ws) && PlainTitle(t)
    ensures Title(pre + TitleMarker + ws + t + "\n" + rest) == t
  {
    var s := pre + TitleMarker + ws + t + "\n" + rest;
    TitleLineParts(pre, ws, t, rest);
    MarkerAfterText(pre, ws + t + "\n" + rest);
    TitleAt(s, |pre|, |pre| + |TitleMarker| + |ws|, t);
  }

  /** Where the parts of `pre + "TITLE:" + ws + t + "---" + rest` sit. */
  lemma TitleSeparatorParts(pre: string, ws: string, t: string, rest: string)
    ensures var s := pre + TitleMarker + ws + t + Separator + rest;
      var g := |pre| + |TitleMarker| + |ws|;
      && s == pre + (TitleMarker + (ws + t + Separator + rest))
      && s[|pre| + |TitleMarker|..g] == ws && g + |t| <= |s| && s[g..g + |t|] == t
      && OccursAt(s, Separator, g + |t|)
  {
    var marked := pre + TitleMarker;
    var spaced := marked + ws;
    MiddleOf(marked, ws, t + Separator + rest);
    MiddleOf(spaced, t, Separator + rest);
    MiddleOf(spaced + t, Separator, rest);
  }

  /**
   * A title ended by `---` on its own line: `pre + "TITLE:" + ws + t + "---"
   * + rest` has title `t` whenever `pre` holds no marker, `t` is a plain
   * title and `t` does not end in `-`.
   */
  lemma TitleBeforeSeparator(pre: string, ws: string, t: string, rest: string)
    requires !Contains(pre, TitleMarker) && AllSpace(ws) && PlainTitle(t) && t[|t| - 1] != '-'
    ensures Title(pre + TitleMarker + ws + t + Separator + rest) == t
  {
    var s := pre + TitleMarker + ws + t + Separator + rest;
    TitleSeparatorParts(pre, ws, t, rest);
    MarkerAfterText(pre, ws + t + Separator + rest);
    TitleAt(s, |pre|, |pre| + |TitleMarker| + |ws|, t);
  }

  /** Neither `\n` nor `---` occurs from position `from` on. */
  predicate NoTerminatorFrom(s: string, from: nat) {
    forall e :: from <= e <= |s| ==> !TerminatorAt(s, e)
  }

  lemma {:induction false} LazyGroupEndNone(s: string, g: nat, e: nat, from: nat)
    requires from <= e && g < e <= |s| && NoLineTerminator(s[g..e]) && NoTerminatorFrom(s, from)
    ensures LazyGroupEnd(s, g, e).None?
    decreases |s| - e
  {
    if e < |s| && !IsLineTerminator(s[e]) {
      assert s[g..e + 1] == s[g..e] + [s[e]];
      LazyGroupEndNone(s, g, e + 1, from);
    }
  }

  lemma {:induction false} BacktrackNone(s: string, q: nat, k: nat, from: nat)
    requires from <= q && q + k <= |s| && NoTerminatorFrom(s, from)
    ensures Backtrack(s, q, k).None?
    decreases k
  {
    if q + k < |s| && !IsLineTerminator(s[q + k]) {
      assert s[q + k..q + k + 1] == [s[q + k]];
      LazyGroupEndNone(s, q + k, q + k + 1, from);
    }
    if k > 0 {
      BacktrackNone(s, q, k - 1, from);
    }
  }

  lemma {:induction false} FirstMatchNone(s: string, i: nat, from: nat)
    requires i <= |s| && NoTerminatorFrom(s, from)
    requires forall j :: i <= j < from ==> !OccursAt(s, TitleMarker, j)
    ensures FirstMatchFrom(s, i).None?
    decreases |s| - i
  {
    if OccursAt(s, TitleMarker, i) {
      var q := i + |TitleMarker|;
      BacktrackNone(s, q, SpaceRunLength(s[q..]), from);
    }
    if i < |s| {
      FirstMatchNone(s, i + 1, from);
    }
  }

  /**
   * A reply with a marker but neither `\n` nor `---` anywhere after it has
   * no match, so it gets the default title.
   */
  lemma TitleWithoutTerminator(s: string)
    requires IndexOf(s, TitleMarker).Some? && NoTerminatorFrom(s, IndexOf(s, TitleMarker).value)
    ensures Title(s) == DefaultTitle
  {
    FirstMatchNone(s, 0, IndexOf(s, TitleMarker).value);
  }

  /** A title line ended by `\n` is cut out with its `\n`, and nothing else is. */
  lemma RemoveTitleLineOf(pre: string, line: string, rest: string)
    requires !Contains(pre, TitleMarker) && NoLineTerminator(line)
    ensures RemoveTitleLine(pre + TitleMarker + line + "\n" + rest) == pre + rest
  {
    var s := pre + TitleMarker + line + "\n" + rest;
    var p := |pre|;
    var c := p + |TitleMarker| + |line| + 1;
    EndedTitleLineParts(pre, line, rest);
    MarkerAfterText(pre, line + "\n" + rest);
    assert TitleLineAt(s, p, c);
    RemoveTitleLineAt(s, p, c);
  }

  /** Where the parts of `pre + "TITLE:" + line + "\n" + rest` sit. */
  lemma EndedTitleLineParts(pre: string, line: string, rest: string)
    ensures var s := pre + TitleMarker + line + "\n" + rest;
      var c := |pre| + |TitleMarker| + |line| + 1;
      && s == pre + (TitleMarker + (line + "\n" + rest))
      && c <= |s| && s[|pre| + |TitleMarker|..c - 1] == line && s[c - 1] == '\n'
      && s[..|pre|] == pre && s[c..] == rest
  {
    MiddleOf(pre + TitleMarker, line, "\n" + rest);
  }

  /** The cut made at the first marker is the title line there. */
  lemma RemoveTitleLineAt(s: string, p: nat, c: nat)
    requires IndexOf(s, TitleMarker) == Some(p) && TitleLineAt(s, p, c)
    ensures RemoveTitleLine(s) == s[..p] + s[c..]
  {
    var c': nat :| TitleLineAt(s, p, c') && RemoveTitleLine(s) == s[..p] + s[c'..];
    TitleLineUnique(s, p, c, c');
  }

  /** A title line at the very end is cut out up to the end. */
  lemma RemoveLastTitleLine(pre: string, line: string)
    requires !Contains(pre, TitleMarker) && NoLineTerminator(line)
    ensures RemoveTitleLine(pre + TitleMarker + line) == pre
  {
    var s := pre + TitleMarker + line;
    var p := |pre|;
    assert s == pre + (TitleMarker + line);
    assert s == pre + (TitleMarker + (line + []));
    MarkerAfterText(pre, line);
    assert s[p + |TitleMarker|..|s|] == line;
    assert TitleLineAt(s, p, |s|);
    RemoveTitleLineAt(s, p, |s|);
    assert s[..p] == pre;
  }

  /** Without `---`, the body is the reply minus its title line, trimmed. */
  lemma ContentWithoutSeparator(pre: string, line: string, rest: string)
    requires !Contains(pre, TitleMarker) && NoLineTerminator(line)
    requires !Contains(pre + TitleMarker + line + "\n" + rest, Separator)
    ensures Content(pre + TitleMarker + line + "\n" + rest) == Trim(pre + rest)
  {
    RemoveTitleLineOf(pre, line, rest);
  }

  // ---------------------------------------------------------------------------
  // The reply format the system prompt asks for, and its round trip
  // ---------------------------------------------------------------------------

  /** "TITLE: [title]\n---\n[story]", the layout the prompt requests. */
  function Format(title: string, body: string): string {
    TitleMarker + " " + title + "\n" + Separator + "\n" + body
  }

  /** A title the requested layout can carry unchanged. */
  predicate PlainTitle(t: string) {
    && t != []
    && !IsSpace(t[0]) && !IsSpace(t[|t| - 1])
    && NoLineTerminator(t)
    && !Contains(t, Separator)
  }

  /** Where each part of `Format(title, body)` sits. */
  lemma FormatLayout(title: string, body: string)
    ensures |Format(title, body)| == 12 + |title| + |body|
    ensures Format(title, body)[..6] == TitleMarker && Format(title, body)[6] == ' '
    ensures Format(title, body)[7..7 + |title|] == title
    ensures Format(title, body)[7 + |title|] == '\n'
    ensures Format(title, body)[8 + |title|..11 + |title|] == Separator
    ensures Format(title, body)[11 + |title|..] == "\n" + body
  {
  }

  /** In a well-laid-out reply, no `---` starts before the separator line. */
  lemma FormatSeparatorFirst(title: string, body: string, i: nat)
    requires PlainTitle(title) && i < 8 + |title|
    ensures !OccursAt(Format(title, body), Separator, i)
  {
    var s := Format(title, body);
    FormatLayout(title, body);
    if i < 7 {
      assert s[i] != Separator[0] by {
        if i < 6 {
          assert s[i] == s[..6][i] == TitleMarker[i];
        }
      }
    } else if i + 2 < 7 + |title| {
      assert s[i..i + 3] == title[i - 7..i - 4] by {
        assert title[i - 7..i - 4] == s[7..7 + |title|][i - 7..i - 4];
      }
      assert !OccursAt(title, Separator, i - 7);
    } else {
      assert s[7 + |title|] == '\n';
      assert i + 3 <= |s| ==> s[i..i + 3][7 + |title| - i] == '\n';
    }
  }

  /** The title of a well-laid-out reply is the title that was laid out. */
  lemma FormatTitle(title: string, body: string)
    requires PlainTitle(title)
    ensures Title(Format(title, body)) == title
  {
    assert !Contains("", TitleMarker);
    assert Format(title, body) == "" + TitleMarker + " " + title + "\n" + (Separator + "\n" + body);
    TitleAfterMarker("", " ", title, Separator + "\n" + body);
  }

  /** In a well-laid-out reply, the first `---` is the separator line. */
  lemma FormatSeparatorIndex(title: string, body: string)
    requires PlainTitle(title)
    ensures IndexOf(Format(title, body), Separator) == Some(8 + |title|)
  {
    var s := Format(title, body);
    var at := 8 + |title|;
    FormatLayout(title, body);
    assert OccursAt(s, Separator, at);
    forall i | 0 <= i < at ensures !OccursAt(s, Separator, i) {
      FormatSeparatorFirst(title, body, i);
    }
    IndexOfFirst(s, Separator, at);
  }

  /** The body of a well-laid-out reply is the laid-out body, trimmed. */
  lemma FormatContent(title: string, body: string)
    requires PlainTitle(title)
    ensures Content(Format(title, body)) == Trim(body)
  {
    var s := Format(title, body);
    FormatSeparatorIndex(title, body);
    FormatLayout(title, body);
    var rest := s[11 + |title|..];
    assert rest == "\n" + body;
    assert Content(s) == Trim(rest);
    assert IsSpace("\n"[0]);
    TrimSkipsLeadingSpace("\n", body);
  }

  /**
   * Round trip: parsing a reply in the requested layout gives back its title
   * and its trimmed body.
   */
  lemma ParseFormatRoundTrip(title: string, body: string)
    requires PlainTitle(title)
    ensures ParseStory(Some(Format(title, body))) == StoryText(title, Trim(body))
  {
    FormatTitle(title, body);
    FormatContent(title, body);
  }
}
