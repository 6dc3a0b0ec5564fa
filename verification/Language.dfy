/** Which language a text is in, and the key it is matched by (src/shared/language.py). */
module Language {
  import opened Text

  // ---- the Arabic normalizer ---------------------------------------------------------------------------------------

  const ALEF := 0x0627 as char
  const YEH := 0x064A as char
  const HEH := 0x0647 as char
  const WAW := 0x0648 as char

  predicate IsTatweel(c: char) {
    c as int == 0x0640
  }

  /** The fold table on one character that it does not delete. */
  function Fold(c: char): char {
    var n := c as int;
    if n == 0x0622 || n == 0x0623 || n == 0x0625 || n == 0x0671 then ALEF
    else if n == 0x0626 || n == 0x0649 then YEH
    else if n == 0x0629 then HEH
    else if n == 0x0624 then WAW
    else c
  }

  /** Tashkeel and Quranic annotation marks. */
  predicate IsMark(c: char) {
    var n := c as int;
    0x064B <= n < 0x0660 || n == 0x0670 || 0x06D6 <= n < 0x06ED
  }

  /** `text.translate(_ARABIC_FOLD)`. */
  function FoldAll(s: string): string {
    if s == "" then "" else (if IsTatweel(s[0]) then "" else [Fold(s[0])]) + FoldAll(s[1..])
  }

  /** `text.translate(_ARABIC_MARKS)`. */
  function DropMarks(s: string): string {
    if s == "" then "" else (if IsMark(s[0]) then "" else [s[0]]) + DropMarks(s[1..])
  }

  function NormalizeArabic(s: string): string {
    DropMarks(FoldAll(s))
  }

  /** The characters the normalizer leaves alone. */
  predicate Settled(c: char) {
    Fold(c) == c && !IsTatweel(c) && !IsMark(c)
  }

  predicate Normal(s: string) {
    forall i | 0 <= i < |s| :: Settled(s[i])
  }

  lemma {:induction false} FoldAppend(a: string, b: string)
    ensures FoldAll(a + b) == FoldAll(a) + FoldAll(b)
  {
    if a == "" {
      assert a + b == b;
    } else {
      assert (a + b)[1..] == a[1..] + b;
      FoldAppend(a[1..], b);
    }
  }

  lemma {:induction false} DropAppend(a: string, b: string)
    ensures DropMarks(a + b) == DropMarks(a) + DropMarks(b)
  {
    if a == "" {
      assert a + b == b;
    } else {
      assert (a + b)[1..] == a[1..] + b;
      DropAppend(a[1..], b);
    }
  }

  /** Normalizing a whole is normalizing its parts. */
  lemma NormalizeAppend(a: string, b: string)
    ensures NormalizeArabic(a + b) == NormalizeArabic(a) + NormalizeArabic(b)
  {
    FoldAppend(a, b);
    DropAppend(FoldAll(a), FoldAll(b));
  }

  /** One character normalizes to nothing or to a settled character. */
  lemma NormalizeChar(c: char)
    ensures NormalizeArabic([c]) == if IsTatweel(c) || IsMark(c) then "" else [Fold(c)]
    ensures !IsTatweel(c) && !IsMark(c) ==> Settled(Fold(c))
  {
    assert [c][1..] == "" && [Fold(c)][1..] == "";
    assert FoldAll([c]) == if IsTatweel(c) then "" else [Fold(c)];
    assert DropMarks([Fold(c)]) == if IsMark(Fold(c)) then "" else [Fold(c)];
  }

  /** The result is normal, and a text is unchanged exactly when it is already normal; so normalizing is idempotent. */
  lemma {:induction false} NormalizeSettles(s: string)
    ensures Normal(NormalizeArabic(s))
    ensures NormalizeArabic(s) == s <==> Normal(s)
    ensures |NormalizeArabic(s)| <= |s|
  {
    if s != "" {
      assert s == [s[0]] + s[1..];
      NormalizeAppend([s[0]], s[1..]);
      NormalizeChar(s[0]);
      NormalizeSettles(s[1..]);
      assert Normal(s) <==> Settled(s[0]) && Normal(s[1..]) by {
        assert forall i | 0 <= i < |s[1..]| :: s[1..][i] == s[i + 1];
      }
      var n := NormalizeArabic([s[0]]) + NormalizeArabic(s[1..]);
      if n == s {
        assert |NormalizeArabic([s[0]])| == 1 && n[0] == s[0] && n[1..] == NormalizeArabic(s[1..]);
      }
    }
  }

  /** The two translations commute: removing the marks last, as the code does, or first is the same. */
  lemma {:induction false} PassesCommute(s: string)
    ensures DropMarks(FoldAll(s)) == FoldAll(DropMarks(s))
  {
    if s != "" {
      PassesCommute(s[1..]);
      assert s == [s[0]] + s[1..];
      FoldAppend([s[0]], s[1..]);
      DropAppend(FoldAll([s[0]]), FoldAll(s[1..]));
      DropAppend([s[0]], s[1..]);
      FoldAppend(DropMarks([s[0]]), DropMarks(s[1..]));
      NormalizeChar(s[0]);
      assert [s[0]][1..] == "";
      assert DropMarks([s[0]]) == if IsMark(s[0]) then "" else [s[0]];
      assert FoldAll([s[0]]) == if IsTatweel(s[0]) then "" else [Fold(s[0])];
    }
  }

  /** What normalizing does to each character of the Arabic block, by code point: the variants of alef, of yeh, of heh
      and of waw become the letter itself; tatweel and the marks disappear; everything else stays. */
  lemma NormalizeEach(c: char)
    ensures var n, r := c as int, NormalizeArabic([c]);
            && (n in {0x0622, 0x0623, 0x0625, 0x0671} ==> r == [0x0627 as char])
            && (n in {0x0626, 0x0649} ==> r == [0x064A as char])
            && (n == 0x0629 ==> r == [0x0647 as char])
            && (n == 0x0624 ==> r == [0x0648 as char])
            && (n == 0x0640 || 0x064B <= n <= 0x065F || n == 0x0670 || 0x06D6 <= n <= 0x06EC ==> r == "")
            && ((n < 0x0622 || 0x0627 <= n <= 0x0628 || 0x062A <= n <= 0x063F || 0x0641 <= n <= 0x0648 || n == 0x064A ||
                 0x0660 <= n <= 0x066F || 0x0672 <= n <= 0x06D5 || n >= 0x06ED) ==> r == [c])
  {
    NormalizeChar(c);
  }

  // ---- profiles ----------------------------------------------------------------------------------------------------

  /** A profile's normalizer; `Identity` is the default one, which callers test for by name. */
  datatype Normalizer = Identity | Custom(f: string -> string) {
    function Of(text: string): string {
      match this case Identity => text case Custom(f) => f(text)
    }
  }

  datatype Profile = Profile(code: string, scripts: seq<(int, int)>, normalize: Normalizer)

  /** `derive_match_text`. */
  function DeriveMatchText(p: Profile, searchText: Option<string>): Option<string> {
    if searchText.None? || searchText.value == "" then None
    else
      var normalized := p.normalize.Of(searchText.value);
      if normalized != searchText.value then Some(normalized) else None
  }

  /** What `coalesce(match_text, search_text)` reads. */
  function Coalesce(matchText: Option<string>, searchText: string): string {
    if matchText.Some? then matchText.value else searchText
  }

  /** With the derived key stored, matching sees the normalized text, under every profile and for every text, except
      that an empty text has no key even if the normalizer would make something of it. Nothing is stored exactly where
      the text is empty or normalizes to itself. */
  lemma DerivedKey(p: Profile, text: string)
    ensures Coalesce(DeriveMatchText(p, Some(text)), text) == p.normalize.Of(text) <==>
            text != "" || p.normalize.Of("") == ""
    ensures DeriveMatchText(p, Some(text)).None? <==> text == "" || p.normalize.Of(text) == text
  {
  }

  /** For Arabic that is always, and nothing is stored exactly for normal text. */
  lemma ArabicKey(text: string)
    ensures var p := Profile("ar", [], Custom(NormalizeArabic));
            && Coalesce(DeriveMatchText(p, Some(text)), text) == NormalizeArabic(text)
            && (DeriveMatchText(p, Some(text)).None? <==> Normal(text))
  {
    DerivedKey(Profile("ar", [], Custom(NormalizeArabic)), text);
    NormalizeSettles(text);
  }

  // ---- script shares -----------------------------------------------------------------------------------------------

  /** The configured profiles, and which characters count as letters. */
  datatype Setup = Setup(profiles: seq<Profile>, isLetter: char -> bool)

  predicate InScripts(scripts: seq<(int, int)>, c: char) {
    exists i | 0 <= i < |scripts| :: scripts[i].0 <= c as int <= scripts[i].1
  }

  /** A letter is in a script with several ranges when it is in one of them; both ends of a range belong to it. */
  lemma ScriptRanges(a: seq<(int, int)>, b: seq<(int, int)>, low: int, high: int, c: char)
    ensures !InScripts([], c)
    ensures InScripts([(low, high)], c) <==> low <= c as int <= high
    ensures InScripts(a + b, c) <==> InScripts(a, c) || InScripts(b, c)
  {
    assert [(low, high)][0] == (low, high);
    if i :| 0 <= i < |a| && a[i].0 <= c as int <= a[i].1 {
      assert (a + b)[i] == a[i];
    }
    if i :| 0 <= i < |b| && b[i].0 <= c as int <= b[i].1 {
      assert (a + b)[|a| + i] == b[i];
    }
  }

  /** The first configured profile that claims a character. */
  function CodeOf(profiles: seq<Profile>, c: char): Option<string> {
    if profiles == [] then None
    else if InScripts(profiles[0].scripts, c) then Some(profiles[0].code)
    else CodeOf(profiles[1..], c)
  }

  /** The letters of a text, one by one. */
  function LettersOf(w: Setup, text: string): string {
    if text == "" then ""
    else LettersOf(w, text[..|text| - 1]) + if w.isLetter(text[|text| - 1]) then [text[|text| - 1]] else ""
  }

  /** `letters(text)`: the maximal runs of letters; `run` is the one being read. */
  function Runs(w: Setup, text: string, run: string): seq<string>
    decreases |text|
  {
    if text == "" then if run == "" then [] else [run]
    else if w.isLetter(text[0]) then Runs(w, text[1..], run + [text[0]])
    else (if run == "" then [] else [run]) + Runs(w, text[1..], "")
  }

  function Count(profiles: seq<Profile>, letters: string, code: string): nat {
    if letters == "" then 0
    else Count(profiles, letters[..|letters| - 1], code) +
         if CodeOf(profiles, letters[|letters| - 1]) == Some(code) then 1 else 0
  }

  function Codes(profiles: seq<Profile>): set<string> {
    set i | 0 <= i < |profiles| :: profiles[i].code
  }

  /** `script_shares`: only languages that were hit are listed. */
  function Shares(w: Setup, text: string): map<string, real> {
    var letters := LettersOf(w, text);
    if letters == "" then map[]
    else map c | c in Codes(w.profiles) && Count(w.profiles, letters, c) > 0 ::
           Share(Count(w.profiles, letters, c), |letters|)
  }

  function Share(hits: nat, total: nat): real
    requires total > 0
  {
    hits as real / total as real
  }

  function Flatten(words: seq<string>): string {
    if words == [] then "" else words[0] + Flatten(words[1..])
  }

  lemma {:induction false} FlattenAppend(a: seq<string>, b: seq<string>)
    ensures Flatten(a + b) == Flatten(a) + Flatten(b)
  {
    if a == [] {
      assert a + b == b;
    } else {
      assert (a + b)[1..] == a[1..] + b;
      FlattenAppend(a[1..], b);
    }
  }

  /** The letters of a concatenation. */
  lemma {:induction false} LettersAppend(w: Setup, a: string, b: string)
    ensures LettersOf(w, a + b) == LettersOf(w, a) + LettersOf(w, b)
  {
    if b == "" {
      assert a + b == a;
    } else {
      assert (a + b)[..|a + b| - 1] == a + b[..|b| - 1];
      LettersAppend(w, a, b[..|b| - 1]);
    }
  }

  /** Walking the runs letter by letter visits exactly the letters of the text, in order. */
  lemma {:induction false} RunsAreLetters(w: Setup, text: string, run: string)
    ensures Flatten(Runs(w, text, run)) == run + LettersOf(w, text)
    decreases |text|
  {
    if text != "" {
      assert text == [text[0]] + text[1..];
      LettersAppend(w, [text[0]], text[1..]);
      assert LettersOf(w, [text[0]]) == if w.isLetter(text[0]) then [text[0]] else "" by {
        assert [text[0]][..0] == "";
      }
      if w.isLetter(text[0]) {
        RunsAreLetters(w, text[1..], run + [text[0]]);
      } else {
        RunsAreLetters(w, text[1..], "");
        FlattenAppend(if run == "" then [] else [run], Runs(w, text[1..], ""));
        assert [run][1..] == [] && Flatten([run]) == run;
      }
    } else {
      assert [run][1..] == [] && Flatten([run]) == run;
    }
  }

  lemma {:induction false} CountAppend(profiles: seq<Profile>, a: string, b: string, code: string)
    ensures Count(profiles, a + b, code) == Count(profiles, a, code) + Count(profiles, b, code)
  {
    if b == "" {
      assert a + b == a;
    } else {
      assert (a + b)[..|a + b| - 1] == a + b[..|b| - 1];
      CountAppend(profiles, a, b[..|b| - 1], code);
    }
  }

  lemma {:induction false} CodeOfIn(profiles: seq<Profile>, c: char)
    ensures CodeOf(profiles, c).Some? ==> CodeOf(profiles, c).value in Codes(profiles)
  {
    if profiles != [] {
      CodeOfIn(profiles[1..], c);
      if CodeOf(profiles[1..], c).Some? {
        var i :| 0 <= i < |profiles[1..]| && profiles[1..][i].code == CodeOf(profiles[1..], c).value;
        assert profiles[i + 1].code == CodeOf(profiles[1..], c).value;
      }
    }
  }

  /** Tallies of the letters seen so far. */
  ghost predicate Tallied(profiles: seq<Profile>, letters: string, hits: map<string, nat>) {
    && (forall c | c in hits :: c in Codes(profiles))
    && (forall c ::
          && (c in hits <==> Count(profiles, letters, c) > 0)
          && (c in hits ==> hits[c] == Count(profiles, letters, c)))
  }

  lemma EmptyTally(profiles: seq<Profile>)
    ensures Tallied(profiles, "", map[])
  {
  }

  /** The innermost loop: the first profile that claims the letter is credited, and the loop breaks. */
  method Credit(profiles: seq<Profile>, c: char, hits: map<string, nat>, ghost seen: string)
    returns (hits': map<string, nat>)
    requires Tallied(profiles, seen, hits)
    ensures Tallied(profiles, seen + [c], hits')
  {
    hits' := hits;
    ghost var found := CodeOf(profiles, c);
    CodeOfIn(profiles, c);
    assert (seen + [c])[..|seen|] == seen;
    assert forall code ::
      Count(profiles, seen + [c], code) == Count(profiles, seen, code) + if found == Some(code) then 1 else 0;
    for n := 0 to |profiles|
      invariant hits' == hits && CodeOf(profiles[n..], c) == found
    {
      if InScripts(profiles[n].scripts, c) {
        var code := profiles[n].code;
        hits' := hits[code := 1 + if code in hits then hits[code] else 0];
        return;
      }
      assert profiles[n..][1..] == profiles[n + 1..];
    }
  }

  /** One word, letter by letter. */
  method CreditWord(profiles: seq<Profile>, word: string, counted: nat, hits: map<string, nat>, ghost seen: string)
    returns (counted': nat, hits': map<string, nat>)
    requires counted == |seen| && Tallied(profiles, seen, hits)
    ensures counted' == |seen + word| && Tallied(profiles, seen + word, hits')
  {
    hide Tallied;
    counted', hits' := counted, hits;
    assert seen + word[..0] == seen;
    for j := 0 to |word|
      invariant counted' == |seen| + j && Tallied(profiles, seen + word[..j], hits')
    {
      counted' := counted' + 1;
      hits' := Credit(profiles, word[j], hits', seen + word[..j]);
      assert seen + word[..j] + [word[j]] == seen + word[..j + 1];
    }
    assert word[..|word|] == word;
  }

  /** Dividing the tallies of all letters gives the shares. */
  lemma TallyIsShares(w: Setup, text: string, hits: map<string, nat>)
    requires Tallied(w.profiles, LettersOf(w, text), hits) && LettersOf(w, text) != ""
    ensures (map code | code in hits :: Share(hits[code], |LettersOf(w, text)|)) == Shares(w, text)
  {
    hide Count, Share;
    assert hits.Keys == Shares(w, text).Keys;
  }

  lemma FlattenFrom(words: seq<string>, i: nat)
    requires i < |words|
    ensures Flatten(words[i..]) == words[i] + Flatten(words[i + 1..])
  {
    assert words[i..][1..] == words[i + 1..];
  }

  lemma FlattenNone(words: seq<string>)
    ensures Flatten(words[|words|..]) == ""
  {
  }

  /** `script_shares`. */
  method ScriptShares(w: Setup, text: string) returns (shares: map<string, real>)
    ensures shares == Shares(w, text)
  {
    var counted, hits := 0, map[];
    EmptyTally(w.profiles);
    var words := Runs(w, text, "");
    ghost var seen := "";
    RunsAreLetters(w, text, "");
    assert words[0..] == words && "" + Flatten(words) == Flatten(words);
    hide Tallied, Share, Runs, Flatten, LettersOf;
    for i := 0 to |words|
      invariant counted == |seen| && Tallied(w.profiles, seen, hits)
      invariant seen + Flatten(words[i..]) == LettersOf(w, text)
    {
      FlattenFrom(words, i);
      assert seen + (words[i] + Flatten(words[i + 1..])) == (seen + words[i]) + Flatten(words[i + 1..]);
      counted, hits := CreditWord(w.profiles, words[i], counted, hits, seen);
      seen := seen + words[i];
    }
    FlattenNone(words);
    assert seen + "" == seen;
    if counted == 0 {
      return map[];
    }
    TallyIsShares(w, text, hits);
    shares := map code | code in hits :: Share(hits[code], counted);
  }

  // ---- detection ---------------------------------------------------------------------------------------------------

  /** `(-share, code)` order: does `a` come before `b`? */
  predicate Before(shares: map<string, real>, a: string, b: string)
    requires a in shares && b in shares
  {
    shares[a] > shares[b] || (shares[a] == shares[b] && Less(a, b))
  }

  /** The head of the sorted list of clearing languages, taken from those in `codes`. */
  function Head(shares: map<string, real>, bar: real, codes: seq<string>): (r: Option<string>)
    requires forall c | c in codes :: c in shares
    ensures r.Some? ==> r.value in codes
  {
    if codes == [] then None
    else
      var rest, c := Head(shares, bar, codes[1..]), codes[0];
      if shares[c] < bar then rest
      else if rest.None? || Before(shares, c, rest.value) then Some(c)
      else rest
  }

  /** `detect_language` before its default: the language that clears the bar and wins, if any. */
  function Detected(w: Setup, text: string, bar: real): Option<string> {
    var shares := Shares(w, text);
    Head(shares, bar, Sorted(shares.Keys))
  }

  function DetectLanguage(w: Setup, text: string, bar: real, default: string): string {
    var d := Detected(w, text, bar);
    if d.Some? then d.value else default
  }

  /** What it means to win: clear the bar, and come before every other language that clears it. */
  ghost predicate Wins(shares: map<string, real>, bar: real, x: string) {
    x in shares && shares[x] >= bar && forall y | y in shares && shares[y] >= bar && y != x :: Before(shares, x, y)
  }

  lemma {:induction false} HeadWins(shares: map<string, real>, bar: real, codes: seq<string>)
    requires forall c | c in codes :: c in shares
    ensures var r := Head(shares, bar, codes);
            && (r.None? ==> forall c | c in codes :: shares[c] < bar)
            && (r.Some? ==> shares[r.value] >= bar)
            && (r.Some? ==> forall y | y in codes && shares[y] >= bar && y != r.value :: Before(shares, r.value, y))
  {
    if codes != [] {
      assert codes == [codes[0]] + codes[1..];
      HeadWins(shares, bar, codes[1..]);
      var rest, c := Head(shares, bar, codes[1..]), codes[0];
      if rest.Some? && shares[c] >= bar {
        LessTotal(c, rest.value);
        forall y | y in codes[1..] && shares[y] >= bar && y != c && Before(shares, c, rest.value)
          ensures Before(shares, c, y)
        {
          if y != rest.value && shares[c] == shares[rest.value] == shares[y] {
            LessTransitive(c, rest.value, y);
          }
        }
      }
    }
  }

  lemma HeadIffWins(shares: map<string, real>, bar: real, x: string)
    ensures Head(shares, bar, Sorted(shares.Keys)) == Some(x) <==> Wins(shares, bar, x)
  {
    var codes := Sorted(shares.Keys);
    HeadWins(shares, bar, codes);
    var d := Head(shares, bar, codes);
    assert x in shares ==> x in codes;
    if d.Some? && Less(x, d.value) {
      LessAsymmetric(x, d.value);
    }
  }

  lemma DetectedIffWins(w: Setup, text: string, bar: real, x: string)
    ensures Detected(w, text, bar) == Some(x) <==> Wins(Shares(w, text), bar, x)
  {
    HeadIffWins(Shares(w, text), bar, x);
  }

  lemma NoneDetected(w: Setup, text: string, bar: real)
    ensures Detected(w, text, bar) == None <==> forall c | c in Shares(w, text) :: Shares(w, text)[c] < bar
  {
    var shares := Shares(w, text);
    HeadWins(shares, bar, Sorted(shares.Keys));
    if Detected(w, text, bar).Some? {
      assert Detected(w, text, bar).value in shares;
    }
  }

  // ---- the same in counts ------------------------------------------------------------------------------------------

  /** Enough hits among `total` letters, stated without division. */
  predicate Clears(hits: nat, total: nat, bar: real) {
    hits > 0 && hits as real >= bar * total as real
  }

  lemma ShareClears(hits: nat, total: nat, bar: real)
    requires total > 0 && hits > 0
    ensures Share(hits, total) >= bar <==> Clears(hits, total, bar)
  {
    var s := hits as real / total as real;
    assert s * total as real == hits as real;
    if s >= bar {
      assert s * total as real >= bar * total as real;
    } else {
      assert s * total as real < bar * total as real;
    }
  }

  lemma SharesCompare(m: nat, n: nat, total: nat)
    requires total > 0
    ensures Share(m, total) > Share(n, total) <==> m > n
    ensures Share(m, total) == Share(n, total) <==> m == n
  {
    var a, b, t := m as real / total as real, n as real / total as real, total as real;
    assert a * t == m as real && b * t == n as real;
    if a > b {
      assert a * t > b * t;
    }
    if a < b {
      assert a * t < b * t;
    }
  }

  /** Winning, in counts. */
  ghost predicate WinsCount(w: Setup, letters: string, bar: real, x: string) {
    && x in Codes(w.profiles)
    && Clears(Count(w.profiles, letters, x), |letters|, bar)
    && forall y | y in Codes(w.profiles) && y != x && Clears(Count(w.profiles, letters, y), |letters|, bar) ::
         Count(w.profiles, letters, x) > Count(w.profiles, letters, y) ||
         (Count(w.profiles, letters, x) == Count(w.profiles, letters, y) && Less(x, y))
  }

  lemma WinsIffWinsCount(w: Setup, text: string, bar: real, x: string)
    ensures Wins(Shares(w, text), bar, x) <==> WinsCount(w, LettersOf(w, text), bar, x)
  {
    var letters, shares := LettersOf(w, text), Shares(w, text);
    if letters != "" {
      forall y | y in shares
        ensures shares[y] >= bar <==> Clears(Count(w.profiles, letters, y), |letters|, bar)
      {
        ShareClears(Count(w.profiles, letters, y), |letters|, bar);
      }
      forall y, z | y in shares && z in shares
        ensures Before(shares, y, z) <==>
                Count(w.profiles, letters, y) > Count(w.profiles, letters, z) ||
                (Count(w.profiles, letters, y) == Count(w.profiles, letters, z) && Less(y, z))
      {
        SharesCompare(Count(w.profiles, letters, y), Count(w.profiles, letters, z), |letters|);
      }
    }
  }

  /** The mediant of two shares clears the bar if both do, and does not if neither does. */
  lemma MediantClears(m: nat, p: nat, n: nat, q: nat, bar: real)
    ensures Clears(m, p, bar) && Clears(n, q, bar) ==> Clears(m + n, p + q, bar)
    ensures !Clears(m, p, bar) && !Clears(n, q, bar) && m <= p && n <= q ==> !Clears(m + n, p + q, bar)
  {
    assert bar * (p + q) as real == bar * p as real + bar * q as real;
    if bar < 0.0 {
      assert bar * p as real <= 0.0 && bar * q as real <= 0.0;
    } else {
      assert bar * p as real >= 0.0 && bar * q as real >= 0.0;
    }
  }

  lemma WinsCountAppend(w: Setup, la: string, lb: string, bar: real, x: string)
    requires WinsCount(w, la, bar, x) && WinsCount(w, lb, bar, x)
    ensures WinsCount(w, la + lb, bar, x)
  {
    CountAppend(w.profiles, la, lb, x);
    MediantClears(Count(w.profiles, la, x), |la|, Count(w.profiles, lb, x), |lb|, bar);
    forall y | y in Codes(w.profiles) && y != x
      ensures Count(w.profiles, la + lb, x) > Count(w.profiles, la + lb, y) ||
              (Count(w.profiles, la + lb, x) == Count(w.profiles, la + lb, y) && Less(x, y))
    {
      CountAppend(w.profiles, la, lb, y);
      TieOrLead(w, la, bar, x, y);
      TieOrLead(w, lb, bar, x, y);
    }
  }

  /** A winner has at least as many hits as anyone, and precedes whoever ties with it. */
  lemma TieOrLead(w: Setup, letters: string, bar: real, x: string, y: string)
    requires WinsCount(w, letters, bar, x) && y in Codes(w.profiles) && y != x
    ensures var m, n := Count(w.profiles, letters, x), Count(w.profiles, letters, y);
            m > n || (m == n && Less(x, y))
  {
  }

  /** Detection is stable under concatenation: two texts of one detected language make a text of that language. */
  lemma SameLanguageConcat(w: Setup, a: string, b: string, bar: real, x: string)
    requires Detected(w, a, bar) == Some(x) && Detected(w, b, bar) == Some(x)
    ensures Detected(w, a + b, bar) == Some(x)
  {
    DetectedIffWinsCount(w, a, bar, x);
    DetectedIffWinsCount(w, b, bar, x);
    DetectedIffWinsCount(w, a + b, bar, x);
    LettersAppend(w, a, b);
    WinsCountAppend(w, LettersOf(w, a), LettersOf(w, b), bar, x);
  }

  lemma DetectedIffWinsCount(w: Setup, text: string, bar: real, x: string)
    ensures Detected(w, text, bar) == Some(x) <==> WinsCount(w, LettersOf(w, text), bar, x)
  {
    DetectedIffWins(w, text, bar, x);
    WinsIffWinsCount(w, text, bar, x);
  }

  lemma {:induction false} CountWithin(profiles: seq<Profile>, letters: string, code: string)
    ensures Count(profiles, letters, code) <= |letters|
  {
    if letters != "" {
      CountWithin(profiles, letters[..|letters| - 1], code);
    }
  }

  /** Two texts in which nothing clears the bar make a text in which nothing does. */
  lemma DefaultConcat(w: Setup, a: string, b: string, bar: real)
    requires Detected(w, a, bar) == None && Detected(w, b, bar) == None
    ensures Detected(w, a + b, bar) == None
  {
    hide Clears, LettersOf, Head, Shares;
    if Detected(w, a + b, bar).Some? {
      var y, la, lb := Detected(w, a + b, bar).value, LettersOf(w, a), LettersOf(w, b);
      DetectedIffWinsCount(w, a + b, bar, y);
      LettersAppend(w, a, b);
      CountAppend(w.profiles, la, lb, y);
      NoneClears(w, a, bar, y);
      NoneClears(w, b, bar, y);
      CountWithin(w.profiles, la, y);
      CountWithin(w.profiles, lb, y);
      MediantClears(Count(w.profiles, la, y), |la|, Count(w.profiles, lb, y), |lb|, bar);
      assert false;
    }
  }

  lemma NoneClears(w: Setup, text: string, bar: real, y: string)
    requires Detected(w, text, bar) == None && y in Codes(w.profiles)
    ensures !Clears(Count(w.profiles, LettersOf(w, text), y), |LettersOf(w, text)|, bar)
  {
    NoneDetected(w, text, bar);
    var n := Count(w.profiles, LettersOf(w, text), y);
    if n > 0 {
      assert LettersOf(w, text) != "";
      ShareClears(n, |LettersOf(w, text)|, bar);
      assert y in Shares(w, text);
    }
  }

  /** The default profile has no scripts: it is what text is when nothing else claims it. */
  predicate DefaultUnscripted(w: Setup, default: string) {
    forall i | 0 <= i < |w.profiles| && w.profiles[i].code == default :: w.profiles[i].scripts == []
  }

  lemma {:induction false} UnscriptedNeverClaims(profiles: seq<Profile>, c: char, default: string)
    requires forall i | 0 <= i < |profiles| && profiles[i].code == default :: profiles[i].scripts == []
    ensures CodeOf(profiles, c) != Some(default)
  {
    if profiles != [] {
      assert forall i | 0 <= i < |profiles[1..]| :: profiles[1..][i] == profiles[i + 1];
      UnscriptedNeverClaims(profiles[1..], c, default);
    }
  }

  lemma {:induction false} UnscriptedNeverCounts(w: Setup, letters: string, default: string)
    requires DefaultUnscripted(w, default)
    ensures Count(w.profiles, letters, default) == 0
  {
    if letters != "" {
      UnscriptedNeverClaims(w.profiles, letters[|letters| - 1], default);
      UnscriptedNeverCounts(w, letters[..|letters| - 1], default);
    }
  }

  /** Stability of `detect_language` itself: two texts filed under one language stay there when joined. */
  lemma DetectStable(w: Setup, a: string, b: string, bar: real, default: string)
    requires DefaultUnscripted(w, default)
    requires DetectLanguage(w, a, bar, default) == DetectLanguage(w, b, bar, default)
    ensures DetectLanguage(w, a + b, bar, default) == DetectLanguage(w, a, bar, default)
  {
    UnscriptedNeverCounts(w, LettersOf(w, a), default);
    UnscriptedNeverCounts(w, LettersOf(w, b), default);
    DetectedIffWins(w, a, bar, default);
    DetectedIffWins(w, b, bar, default);
    if Detected(w, a, bar).Some? {
      SameLanguageConcat(w, a, b, bar, Detected(w, a, bar).value);
    } else {
      DefaultConcat(w, a, b, bar);
    }
  }

  // ---- shares are parts of a whole ---------------------------------------------------------------------------------

  function TotalHits(profiles: seq<Profile>, letters: string, codes: set<string>): nat
    decreases |codes|
  {
    if codes == {} then 0
    else var c := Least(codes); Count(profiles, letters, c) + TotalHits(profiles, letters, codes - {c})
  }

  lemma {:induction false} TotalHitsSnoc(profiles: seq<Profile>, letters: string, codes: set<string>)
    requires letters != ""
    ensures var init, found := letters[..|letters| - 1], CodeOf(profiles, letters[|letters| - 1]);
            TotalHits(profiles, letters, codes) ==
            TotalHits(profiles, init, codes) + if found.Some? && found.value in codes then 1 else 0
    decreases |codes|
  {
    if codes != {} {
      TotalHitsSnoc(profiles, letters, codes - {Least(codes)});
    }
  }

  lemma {:induction false} TotalHitsNone(profiles: seq<Profile>, codes: set<string>)
    ensures TotalHits(profiles, "", codes) == 0
    decreases |codes|
  {
    if codes != {} {
      TotalHitsNone(profiles, codes - {Least(codes)});
    }
  }

  /** Each letter is credited once at most, so the shares of any set of languages add up to at most one. */
  lemma {:induction false} HitsWithinLetters(profiles: seq<Profile>, letters: string, codes: set<string>)
    ensures TotalHits(profiles, letters, codes) <= |letters|
  {
    if letters == "" {
      TotalHitsNone(profiles, codes);
    } else {
      TotalHitsSnoc(profiles, letters, codes);
      HitsWithinLetters(profiles, letters[..|letters| - 1], codes);
    }
  }

  function TotalShare(shares: map<string, real>, codes: set<string>): real
    requires codes <= shares.Keys
    decreases |codes|
  {
    if codes == {} then 0.0 else var c := Least(codes); shares[c] + TotalShare(shares, codes - {c})
  }

  lemma Cancel(p: real, q: real, t: real)
    requires t > 0.0 && p * t <= q * t
    ensures p <= q
  {
    assert p * t == q * t + (p - q) * t;
    assert p - q > 0.0 ==> (p - q) * t > 0.0;
  }

  lemma TimesBack(a: real, t: real)
    requires t > 0.0
    ensures a / t * t == a
  {
  }

  lemma Distribute(x: real, y: real, t: real)
    ensures (x + y) * t == x * t + y * t
  {
  }

  lemma SameMultiple(x: real, y: real, z: real, t: real)
    requires t > 0.0 && x * t + y * t == z * t
    ensures x + y == z
  {
    Distribute(x, y, t);
    Cancel(x + y, z, t);
    Cancel(z, x + y, t);
  }

  lemma SumOfQuotients(a: real, b: real, t: real)
    requires t > 0.0
    ensures a / t + b / t == (a + b) / t
  {
    TimesBack(a, t);
    TimesBack(b, t);
    TimesBack(a + b, t);
    SameMultiple(a / t, b / t, (a + b) / t, t);
  }

  lemma AtMostOne(a: real, t: real)
    requires t > 0.0 && a <= t
    ensures a / t <= 1.0
  {
    TimesBack(a, t);
    assert 1.0 * t == t;
    Cancel(a / t, 1.0, t);
  }

  lemma SharesAdd(m: nat, n: nat, total: nat)
    requires total > 0
    ensures Share(m, total) + Share(n, total) == Share(m + n, total)
    ensures m <= total ==> Share(m, total) <= 1.0
  {
    assert (m + n) as real == m as real + n as real;
    SumOfQuotients(m as real, n as real, total as real);
    if m <= total {
      AtMostOne(m as real, total as real);
    }
  }

  lemma {:induction false} TotalShareIsHits(profiles: seq<Profile>, letters: string, shares: map<string, real>,
                                            codes: set<string>)
    requires codes <= shares.Keys && letters != ""
    requires forall c | c in codes :: shares[c] == Share(Count(profiles, letters, c), |letters|)
    ensures TotalShare(shares, codes) == Share(TotalHits(profiles, letters, codes), |letters|)
    decreases |codes|
  {
    if codes != {} {
      var c := Least(codes);
      TotalShareIsHits(profiles, letters, shares, codes - {c});
      SharesAdd(Count(profiles, letters, c), TotalHits(profiles, letters, codes - {c}), |letters|);
    }
  }

  lemma SharesSumAtMostOne(w: Setup, text: string)
    ensures TotalShare(Shares(w, text), Shares(w, text).Keys) <= 1.0
  {
    var letters, shares := LettersOf(w, text), Shares(w, text);
    if letters != "" {
      TotalShareIsHits(w.profiles, letters, shares, shares.Keys);
      HitsWithinLetters(w.profiles, letters, shares.Keys);
      SharesAdd(TotalHits(w.profiles, letters, shares.Keys), 0, |letters|);
    }
  }
}
