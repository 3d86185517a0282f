/** Path labels and slugs: validation, and generation from a human-readable name. */
module Labels {
  import opened Common
  import opened Text

  /** The Unicode tables the standard library consults. */
  datatype Unicode = Unicode(
    isSpace: char -> bool, isAlnum: char -> bool,
    lower: string -> string, byteLen: string -> nat)

  predicate AsciiLower(c: char) {
    'a' <= c <= 'z'
  }

  predicate AsciiAlnum(c: char) {
    AsciiLower(c) || '0' <= c <= '9'
  }

  predicate Plain(s: string) {
    forall i :: 0 <= i < |s| ==> AsciiAlnum(s[i]) || s[i] == '_' || s[i] == '-'
  }

  /** Facts of the Unicode tables: no alphanumeric is a space, and lower-case ASCII behaves as expected. */
  ghost predicate Sane(u: Unicode) {
    && (forall c :: u.isAlnum(c) ==> !u.isSpace(c))
    && (forall c :: AsciiAlnum(c) ==> u.isAlnum(c))
    && !u.isAlnum('_') && !u.isAlnum('-') && !u.isSpace('_') && !u.isSpace('-')
    && (forall s: string | Plain(s) :: u.lower(s) == s && u.byteLen(s) == |s|)
  }

  function TrimStart(s: string, drop: char -> bool): string {
    if s != [] && drop(s[0]) then TrimStart(s[1..], drop) else s
  }

  function TrimEnd(s: string, drop: char -> bool): string {
    if s != [] && drop(s[|s| - 1]) then TrimEnd(s[..|s| - 1], drop) else s
  }

  function Trim(u: Unicode, s: string): string {
    TrimEnd(TrimStart(s, u.isSpace), u.isSpace)
  }

  function Replace(u: Unicode, s: string, sep: char): string {
    seq(|s|, i requires 0 <= i < |s| => if u.isAlnum(s[i]) then s[i] else sep)
  }

  datatype LabelError = Empty | TooLong | Malformed

  // ── Labels ──────────────────────────────────────────────────

  /** `^[a-z][a-z0-9_]*$` */
  predicate IsLabel(s: string) {
    s != [] && AsciiLower(s[0]) && forall i :: 0 <= i < |s| ==> AsciiAlnum(s[i]) || s[i] == '_'
  }

  function NewLabel(u: Unicode, input: string): Result<string, LabelError> {
    var trimmed := Trim(u, input);
    if trimmed == [] then Err(Empty)
    else if u.byteLen(trimmed) > 255 then Err(TooLong)
    else if !IsLabel(trimmed) then Err(Malformed)
    else Ok(trimmed)
  }

  function LabelFromName(u: Unicode, name: string): Result<string, LabelError> {
    var normal := Collapse(Replace(u, u.lower(Trim(u, name)), '_'), '_');
    if normal == [] then Err(Empty) else NewLabel(u, TrimStart(normal, c => !AsciiLower(c)))
  }

  // ── Slugs ───────────────────────────────────────────────────

  /** `^[a-z0-9]+(-[a-z0-9]+)*$` */
  predicate IsSlug(s: string) {
    s != [] && Clean(s, '-') && forall i :: 0 <= i < |s| ==> AsciiAlnum(s[i]) || s[i] == '-'
  }

  function NewSlug(u: Unicode, input: string): Result<string, LabelError> {
    var trimmed := Trim(u, input);
    if trimmed == [] then Err(Empty)
    else if u.byteLen(trimmed) > 500 then Err(TooLong)
    else if !IsSlug(trimmed) then Err(Malformed)
    else Ok(trimmed)
  }

  function SlugFromName(u: Unicode, name: string): Result<string, LabelError> {
    NewSlug(u, Collapse(Replace(u, u.lower(Trim(u, name)), '-'), '-'))
  }

  // ── Trimming ────────────────────────────────────────────────

  lemma {:induction false} TrimStartIsSuffix(s: string, drop: char -> bool)
    ensures var r := TrimStart(s, drop);
            |r| <= |s| && r == s[|s| - |r|..] && (r != [] ==> !drop(r[0]))
  {
    if s != [] && drop(s[0]) {
      TrimStartIsSuffix(s[1..], drop);
    }
  }

  lemma TrimKeeps(u: Unicode, s: string)
    requires s != [] ==> !u.isSpace(s[0]) && !u.isSpace(s[|s| - 1])
    ensures Trim(u, s) == s
  {
  }

  lemma PlainSurvives(u: Unicode, s: string, sep: char)
    requires Sane(u) && Plain(s) && forall i :: 0 <= i < |s| ==> AsciiAlnum(s[i]) || s[i] == sep
    ensures Trim(u, s) == s && u.lower(s) == s && Replace(u, s, sep) == s && u.byteLen(s) == |s|
  {
    TrimKeeps(u, s);
  }

  // ── Generated labels ────────────────────────────────────────

  /** The labels that generation produces: valid ones with single, inner underscores. */
  predicate GeneratedLabel(s: string) {
    IsLabel(s) && Clean(s, '_') && |s| <= 255
  }

  lemma LabelHasNoDot(s: string)
    requires IsLabel(s)
    ensures '.' !in s
  {
  }

  lemma CleanSuffix(s: string, r: string, sep: char)
    requires Clean(s, sep) && |r| <= |s| && r == s[|s| - |r|..] && (r != [] ==> r[0] != sep)
    ensures Clean(r, sep)
  {
    SuffixHasNoDouble(s, |s| - |r|, sep);
    assert r != [] ==> r[|r| - 1] == s[|s| - 1];
  }

  lemma SuffixHasNoDouble(s: string, d: nat, sep: char)
    requires NoDouble(s, sep) && d <= |s|
    ensures NoDouble(s[d..], sep)
  {
    var r := s[d..];
    forall i | 0 <= i < |r| - 1 ensures !(r[i] == sep && r[i + 1] == sep) {
      assert r[i] == s[d + i] && r[i + 1] == s[d + i + 1];
    }
  }

  /** What is left before validation holds only alphanumerics and single inner separators, so trimming keeps it. */
  lemma NormalFormTrims(u: Unicode, text: string, sep: char, r: string)
    requires Sane(u) && (sep == '_' || sep == '-')
    requires var normal := Collapse(Replace(u, text, sep), sep);
             |r| <= |normal| && r == normal[|normal| - |r|..] && (r != [] ==> r[0] != sep)
    ensures Clean(r, sep) && Trim(u, r) == r
  {
    var normal := Collapse(Replace(u, text, sep), sep);
    CollapseIsClean(Replace(u, text, sep), sep);
    CleanSuffix(normal, r, sep);
    NormalFormHasNoSpace(u, text, sep);
    if r != [] {
      assert r[0] == normal[|normal| - |r|] && r[|r| - 1] == normal[|normal| - 1];
    }
    TrimKeeps(u, r);
  }

  lemma NormalFormHasNoSpace(u: Unicode, text: string, sep: char)
    requires Sane(u) && (sep == '_' || sep == '-')
    ensures var normal := Collapse(Replace(u, text, sep), sep);
            forall i :: 0 <= i < |normal| ==> !u.isSpace(normal[i])
  {
    var normal := Collapse(Replace(u, text, sep), sep);
    CollapseIsClean(Replace(u, text, sep), sep);
    forall i | 0 <= i < |normal| ensures !u.isSpace(normal[i]) {
      assert normal[i] in normal;
      assert normal[i] == sep || u.isAlnum(normal[i]);
    }
  }

  lemma GenerationMakesLabels(u: Unicode, name: string)
    requires Sane(u) && LabelFromName(u, name).Ok?
    ensures GeneratedLabel(LabelFromName(u, name).value)
  {
    var text := u.lower(Trim(u, name));
    var normal := Collapse(Replace(u, text, '_'), '_');
    var r := TrimStart(normal, c => !AsciiLower(c));
    TrimStartIsSuffix(normal, c => !AsciiLower(c));
    NormalFormTrims(u, text, '_', r);
    AcceptedAsIs(u, r);
  }

  lemma AcceptedAsIs(u: Unicode, r: string)
    requires Sane(u) && Trim(u, r) == r && NewLabel(u, r).Ok?
    ensures NewLabel(u, r) == Ok(r) && IsLabel(r) && |r| <= 255
  {
    assert Plain(r);
  }

  lemma GeneratedLabelsAreFixed(u: Unicode, s: string)
    requires Sane(u) && GeneratedLabel(s)
    ensures LabelFromName(u, s) == Ok(s)
  {
    PlainSurvives(u, s, '_');
    CollapseKeepsClean(s, '_');
  }

  /**
   * Label generation is idempotent, and its outputs are exactly its fixed points: valid labels of at most
   * 255 characters without doubled or trailing underscores. None of them contains a dot.
   */
  lemma LabelGeneration(u: Unicode, s: string)
    requires Sane(u)
    ensures GeneratedLabel(s) <==> LabelFromName(u, s) == Ok(s)
    ensures GeneratedLabel(s) ==> NewLabel(u, s) == Ok(s) && '.' !in s
    ensures LabelFromName(u, s).Ok? ==> LabelFromName(u, LabelFromName(u, s).value) == LabelFromName(u, s)
  {
    if LabelFromName(u, s).Ok? {
      GenerationMakesLabels(u, s);
      GeneratedLabelsAreFixed(u, LabelFromName(u, s).value);
    }
    if GeneratedLabel(s) {
      GeneratedLabelsAreFixed(u, s);
      PlainSurvives(u, s, '_');
    }
  }

  lemma GenerationMakesSlugs(u: Unicode, name: string)
    requires Sane(u) && SlugFromName(u, name).Ok?
    ensures IsSlug(SlugFromName(u, name).value) && |SlugFromName(u, name).value| <= 500
  {
    var s := SlugFromName(u, name).value;
    assert Plain(s);
  }

  lemma SlugsAreFixed(u: Unicode, s: string)
    requires Sane(u) && IsSlug(s) && |s| <= 500
    ensures SlugFromName(u, s) == Ok(s) && NewSlug(u, s) == Ok(s)
  {
    PlainSurvives(u, s, '-');
    CollapseKeepsClean(s, '-');
  }

  /** Every valid slug is its own slug, and nothing else is: generation is idempotent. */
  lemma SlugGeneration(u: Unicode, s: string)
    requires Sane(u)
    ensures IsSlug(s) && |s| <= 500 <==> SlugFromName(u, s) == Ok(s)
    ensures SlugFromName(u, s).Ok? ==> SlugFromName(u, SlugFromName(u, s).value) == SlugFromName(u, s)
  {
    if SlugFromName(u, s).Ok? {
      GenerationMakesSlugs(u, s);
      SlugsAreFixed(u, SlugFromName(u, s).value);
    }
    if IsSlug(s) && |s| <= 500 {
      SlugsAreFixed(u, s);
    }
  }

  /** A generated slug can only fail by being empty, too long, or holding a letter or digit outside ASCII. */
  lemma SlugFailsOnlyOutsideAscii(u: Unicode, name: string)
    requires Sane(u)
    ensures var text := u.lower(Trim(u, name));
            SlugFromName(u, name) == Err(Malformed) ==> exists c :: c in text && u.isAlnum(c) && !AsciiAlnum(c)
  {
    var text := u.lower(Trim(u, name));
    var slug := Collapse(Replace(u, text, '-'), '-');
    CollapseIsClean(Replace(u, text, '-'), '-');
    NormalFormTrims(u, text, '-', slug);
    if SlugFromName(u, name) == Err(Malformed) {
      var i :| 0 <= i < |slug| && !AsciiAlnum(slug[i]) && slug[i] != '-';
      assert slug[i] in slug;
      assert slug[i] in Replace(u, text, '-');
      assert slug[i] in text && u.isAlnum(slug[i]);
    }
  }

  // ── What generation makes of a name ─────────────────────────

  /** The text cut at every character that is not alphanumeric. */
  function Runs(u: Unicode, s: string): (runs: seq<string>)
    ensures runs != []
  {
    if s == [] then [[]]
    else
      var rest := Runs(u, s[1..]);
      if u.isAlnum(s[0]) then [[s[0]] + rest[0]] + rest[1..] else [[]] + rest
  }

  /** The words of a text: its maximal alphanumeric runs, in order. */
  function Words(u: Unicode, s: string): seq<string> {
    NonEmpty(Runs(u, s))
  }

  lemma {:induction false} RunsAreSplit(u: Unicode, s: string, sep: char)
    requires !u.isAlnum(sep)
    ensures Split(Replace(u, s, sep), sep) == Runs(u, s)
  {
    if s != [] {
      assert Replace(u, s, sep)[1..] == Replace(u, s[1..], sep);
      RunsAreSplit(u, s[1..], sep);
    }
  }

  /** The normal form of a text is its words with separators between them, and it has the same words. */
  lemma NormalFormIsWords(u: Unicode, text: string, sep: char)
    requires !u.isAlnum(sep)
    ensures Collapse(Replace(u, text, sep), sep) == Join(Words(u, text), sep)
    ensures Words(u, Join(Words(u, text), sep)) == Words(u, text)
  {
    RunsAreSplit(u, text, sep);
    var normal := Collapse(Replace(u, text, sep), sep);
    CollapseIsClean(Replace(u, text, sep), sep);
    CollapseKeepsWords(Replace(u, text, sep), sep);
    forall i | 0 <= i < |normal| ensures u.isAlnum(normal[i]) || normal[i] == sep {
      assert normal[i] in normal;
    }
    assert Replace(u, normal, sep) == normal;
    RunsAreSplit(u, normal, sep);
  }

  predicate AsciiWords(words: seq<string>) {
    forall k :: 0 <= k < |words| ==> forall i :: 0 <= i < |words[k]| ==> AsciiAlnum(words[k][i])
  }

  lemma {:induction false} JoinHoldsWords(words: seq<string>, sep: char, k: nat, i: nat)
    requires k < |words| && i < |words[k]|
    ensures words[k][i] in Join(words, sep)
  {
    if k == 0 {
      assert Join(words, sep)[i] == words[0][i];
    } else {
      JoinHoldsWords(words[1..], sep, k - 1, i);
    }
  }

  /** Joined words are plain exactly when every word is. */
  lemma JoinedAscii(words: seq<string>, sep: char)
    requires !AsciiAlnum(sep)
    requires forall k :: 0 <= k < |words| ==> sep !in words[k]
    ensures AsciiWords(words) <==> forall c | c in Join(words, sep) :: AsciiAlnum(c) || c == sep
  {
    if AsciiWords(words) {
      forall c | c in Join(words, sep) ensures AsciiAlnum(c) || c == sep { JoinChars(words, sep, c); }
    }
    if forall c | c in Join(words, sep) :: AsciiAlnum(c) || c == sep {
      forall k, i | 0 <= k < |words| && 0 <= i < |words[k]| ensures AsciiAlnum(words[k][i]) {
        JoinHoldsWords(words, sep, k, i);
        assert words[k][i] in words[k];
      }
    }
  }

  lemma WordsHaveNoSeparator(u: Unicode, text: string, sep: char)
    requires !u.isAlnum(sep)
    ensures forall k :: 0 <= k < |Words(u, text)| ==> Words(u, text)[k] != [] && sep !in Words(u, text)[k]
  {
    RunsAreSplit(u, text, sep);
    forall k | 0 <= k < |Words(u, text)| ensures Words(u, text)[k] != [] && sep !in Words(u, text)[k] {
      NonEmptyParts(Runs(u, text), Words(u, text)[k]);
      var j :| 0 <= j < |Runs(u, text)| && Runs(u, text)[j] == Words(u, text)[k];
      SplitParts(Replace(u, text, sep), sep, j);
    }
  }

  /**
   * A slug is the lower-cased name's words joined by hyphens, no word lost, doubled or moved; and generation
   * succeeds exactly when there is a word, all words are ASCII, and the result has at most 500 characters.
   */
  lemma SlugKeepsWords(u: Unicode, name: string)
    requires Sane(u)
    ensures var words := Words(u, u.lower(Trim(u, name)));
            && (SlugFromName(u, name).Ok? <==> words != [] && AsciiWords(words) && |Join(words, '-')| <= 500)
            && (SlugFromName(u, name).Ok? ==>
                  SlugFromName(u, name).value == Join(words, '-') && Words(u, SlugFromName(u, name).value) == words)
  {
    var text := u.lower(Trim(u, name));
    NormalFormIsWords(u, text, '-');
    WordsHaveNoSeparator(u, text, '-');
    JoinIsClean(Words(u, text), '-');
    NormalFormTrims(u, text, '-', Join(Words(u, text), '-'));
    SlugOfWords(u, Words(u, text));
  }

  lemma SlugOfWords(u: Unicode, words: seq<string>)
    requires Sane(u) && Trim(u, Join(words, '-')) == Join(words, '-')
    requires forall k :: 0 <= k < |words| ==> words[k] != [] && '-' !in words[k]
    ensures NewSlug(u, Join(words, '-')).Ok? <==> words != [] && AsciiWords(words) && |Join(words, '-')| <= 500
    ensures NewSlug(u, Join(words, '-')).Ok? ==> NewSlug(u, Join(words, '-')).value == Join(words, '-')
  {
    var s := Join(words, '-');
    JoinIsClean(words, '-');
    JoinedAscii(words, '-');
    if AsciiWords(words) {
      forall i | 0 <= i < |s| ensures AsciiAlnum(s[i]) || s[i] == '-' { assert s[i] in s; }
      assert Plain(s);
    } else if IsSlug(s) {
      assert false;
    }
  }

  /**
   * A label is the lower-cased name's words joined by underscores, from the first letter on: what is cut off
   * in front has no letter of a-z.
   */
  lemma LabelKeepsWords(u: Unicode, name: string)
    requires Sane(u) && LabelFromName(u, name).Ok?
    ensures var joined := Join(Words(u, u.lower(Trim(u, name))), '_');
            var tag := LabelFromName(u, name).value;
            && |tag| <= |joined| && joined == joined[..|joined| - |tag|] + tag && AsciiLower(tag[0])
            && forall c | c in joined[..|joined| - |tag|] :: !AsciiLower(c)
  {
    var text := u.lower(Trim(u, name));
    var joined := Join(Words(u, text), '_');
    var noLetter := (c: char) => !AsciiLower(c);
    NormalFormIsWords(u, text, '_');
    LabelIsTrimmed(u, name, noLetter);
    TrimStartIsSuffix(joined, noLetter);
    TrimStartDrops(joined, noLetter);
  }

  lemma LabelIsTrimmed(u: Unicode, name: string, noLetter: char -> bool)
    requires Sane(u) && LabelFromName(u, name).Ok? && forall c :: noLetter(c) <==> !AsciiLower(c)
    ensures LabelFromName(u, name).value
         == TrimStart(Collapse(Replace(u, u.lower(Trim(u, name)), '_'), '_'), noLetter)
  {
    var text := u.lower(Trim(u, name));
    var normal := Collapse(Replace(u, text, '_'), '_');
    var r := TrimStart(normal, c => !AsciiLower(c));
    TrimStartIsSuffix(normal, c => !AsciiLower(c));
    NormalFormTrims(u, text, '_', r);
    AcceptedAsIs(u, r);
    TrimStartSame(normal, c => !AsciiLower(c), noLetter);
  }

  lemma {:induction false} TrimStartSame(s: string, drop: char -> bool, drop': char -> bool)
    requires forall c :: drop(c) == drop'(c)
    ensures TrimStart(s, drop) == TrimStart(s, drop')
  {
    if s != [] && drop(s[0]) {
      TrimStartSame(s[1..], drop, drop');
    }
  }

  lemma {:induction false} TrimStartDrops(s: string, drop: char -> bool)
    ensures var r := TrimStart(s, drop);
            |r| <= |s| && forall c | c in s[..|s| - |r|] :: drop(c)
  {
    if s != [] && drop(s[0]) {
      TrimStartDrops(s[1..], drop);
      var r := TrimStart(s, drop);
      assert s[..|s| - |r|] == [s[0]] + s[1..][..|s| - 1 - |r|];
    }
  }
}
