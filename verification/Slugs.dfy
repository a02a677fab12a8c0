/** How a registration turns the name of a candidate into a device identifier. */
module Slugs {
  import opened Basics
  import opened Topics

  predicate Plain(c: char) {
    'a' <= c <= 'z' || '0' <= c <= '9'
  }

  /** Leaves out the characters up to the first plain one. */
  function AfterOthers(s: string): (r: string)
    ensures |r| <= |s| && (r != "" ==> Plain(r[0]))
    ensures |s| > 0 && !Plain(s[0]) ==> |r| < |s|
  {
    if |s| > 0 && !Plain(s[0]) then AfterOthers(s[1..]) else s
  }

  /** Every run of other characters becomes one dash. */
  function Dashed(s: string): string
    decreases |s|
  {
    if |s| == 0 then ""
    else if Plain(s[0]) then [s[0]] + Dashed(s[1..])
    else "-" + Dashed(AfterOthers(s))
  }

  function TrimLeft(s: string): string {
    if |s| > 0 && s[0] == '-' then TrimLeft(s[1..]) else s
  }

  function TrimRight(s: string): string {
    if |s| > 0 && s[|s| - 1] == '-' then TrimRight(s[..|s| - 1]) else s
  }

  /** The identifier made from a name that was already lowered. */
  function Slug(lowered: string): string {
    TrimRight(TrimLeft(Dashed(lowered)))
  }

  /** The identifier of a device; a name without plain characters gets a random one. */
  function DeviceIdFor(lowered: string, random: string): string {
    if Slug(lowered) != "" then Slug(lowered) else "igrill-" + random
  }

  /** Plain characters and single dashes. */
  predicate Sound(s: string) {
    && (forall i :: 0 <= i < |s| ==> Plain(s[i]) || s[i] == '-')
    && (forall i :: 0 < i < |s| ==> s[i - 1] != '-' || s[i] != '-')
  }

  /** A sound identifier that neither begins nor ends with a dash. */
  predicate Tidy(s: string) {
    Sound(s) && (s != "" ==> s[0] != '-' && s[|s| - 1] != '-')
  }

  lemma {:induction false} DashedIsSound(s: string)
    ensures Sound(Dashed(s))
    ensures s != "" && Plain(s[0]) ==> Dashed(s) != "" && Dashed(s)[0] == s[0]
    decreases |s|
  {
    if |s| > 0 {
      if Plain(s[0]) {
        DashedIsSound(s[1..]);
      } else {
        DashedIsSound(AfterOthers(s));
        assert AfterOthers(s) == "" ==> Dashed(AfterOthers(s)) == "";
      }
    }
  }

  lemma {:induction false} TrimLeftKeeps(s: string)
    requires Sound(s)
    ensures Sound(TrimLeft(s)) && (TrimLeft(s) != "" ==> TrimLeft(s)[0] != '-')
    decreases |s|
  {
    if |s| > 0 && s[0] == '-' {
      TrimLeftKeeps(s[1..]);
    }
  }

  lemma {:induction false} TrimRightKeeps(s: string)
    requires Sound(s) && (s != "" ==> s[0] != '-')
    ensures Tidy(TrimRight(s))
    decreases |s|
  {
    if |s| > 0 && s[|s| - 1] == '-' {
      TrimRightKeeps(s[..|s| - 1]);
    }
  }

  /** Every identifier made from a name is tidy, and every tidy identifier is made from itself. */
  lemma SlugIsTidy(lowered: string)
    ensures Tidy(Slug(lowered))
    ensures Slug(Slug(lowered)) == Slug(lowered)
  {
    DashedIsSound(lowered);
    TrimLeftKeeps(Dashed(lowered));
    TrimRightKeeps(TrimLeft(Dashed(lowered)));
    TidyIsItsOwn(Slug(lowered));
  }

  lemma {:induction false} DashedLeaves(s: string)
    requires Sound(s) && (s != "" ==> s[|s| - 1] != '-')
    ensures Dashed(s) == s
    decreases |s|
  {
    if |s| > 0 {
      DashedLeaves(s[1..]);
      if s[0] == '-' {
        assert s[1] != '-';
        assert AfterOthers(s) == AfterOthers(s[1..]) == s[1..];
      }
    }
  }

  lemma TidyIsItsOwn(s: string)
    requires Tidy(s)
    ensures Slug(s) == s
  {
    DashedLeaves(s);
  }

  /** Device identifiers never contain a slash, as topics need. */
  lemma DeviceIdsAreSlashFree(lowered: string, random: string)
    requires SlashFree(random)
    ensures SlashFree(DeviceIdFor(lowered, random))
  {
    SlugIsTidy(lowered);
  }

  // ---------- Which identifier a name gives ----------

  predicate AllPlain(s: string) {
    forall i :: 0 <= i < |s| ==> 'a' <= s[i] <= 'z' || '0' <= s[i] <= '9'
  }

  predicate NonePlain(s: string) {
    forall i :: 0 <= i < |s| ==> !('a' <= s[i] <= 'z' || '0' <= s[i] <= '9')
  }

  /** Words of plain characters, kept apart by gaps of other characters; the outer gaps may be empty. */
  ghost predicate Separated(gaps: seq<string>, words: seq<string>) {
    && |gaps| == |words| + 1
    && (forall i :: 0 <= i < |words| ==> words[i] != "" && AllPlain(words[i]))
    && (forall i :: 0 <= i < |gaps| ==> NonePlain(gaps[i]))
    && (forall i :: 0 < i < |gaps| - 1 ==> gaps[i] != "")
  }

  function Woven(gaps: seq<string>, words: seq<string>): string
    requires |gaps| == |words| + 1
    decreases |words|
  {
    if |words| == 0 then gaps[0] else gaps[0] + (words[0] + Woven(gaps[1..], words[1..]))
  }

  function JoinedByDashes(words: seq<string>): string {
    if |words| == 0 then "" else if |words| == 1 then words[0] else words[0] + ("-" + JoinedByDashes(words[1..]))
  }

  /** The identifier made from a name is its words joined by dashes. */
  lemma SlugOfWords(gaps: seq<string>, words: seq<string>)
    requires Separated(gaps, words)
    ensures Slug(Woven(gaps, words)) == JoinedByDashes(words)
  {
    hide TrimLeft, TrimRight, Dashed, Woven, JoinedByDashes;
    var left := if gaps[0] != "" then "-" else "";
    var right := if |words| > 0 && gaps[|words|] != "" then "-" else "";
    DashedOfWords(gaps, words);
    JoinedEnds(words);
    Trimmed(left, JoinedByDashes(words), right);
  }

  lemma Trimmed(left: string, s: string, right: string)
    requires left in {"", "-"} && right in {"", "-"} && (s == "" ==> right == "")
    requires s != "" ==> s[0] != '-' && s[|s| - 1] != '-'
    ensures TrimRight(TrimLeft(left + (s + right))) == s
  {
    var t := s + right;
    assert t != "" ==> t[0] != '-';
    assert TrimLeft(t) == t;
    if left == "-" {
      assert ("-" + t)[1..] == t;
    } else {
      assert left + t == t;
    }
    assert TrimRight(s) == s;
    if right == "-" {
      assert t[..|t| - 1] == s;
    } else {
      assert t == s;
    }
  }

  /** Every name consists of words and gaps. */
  lemma {:induction false} EveryNameHasWords(s: string) returns (gaps: seq<string>, words: seq<string>)
    ensures Separated(gaps, words) && s == Woven(gaps, words)
    decreases |s|
  {
    gaps, words := [""], [];
    if |s| > 0 {
      gaps, words := EveryNameHasWords(s[1..]);
      var c := [s[0]];
      assert s == c + s[1..];
      if !Plain(s[0]) {
        FirstGapGrows(c, gaps, words);
        gaps := [c + gaps[0]] + gaps[1..];
      } else if |words| > 0 && gaps[0] == "" {
        FirstWordGrows(c, gaps, words);
        words := [c + words[0]] + words[1..];
      } else {
        assert ([""] + gaps)[1..] == gaps && ([c] + words)[1..] == words;
        gaps, words := [""] + gaps, [c] + words;
      }
    }
  }

  lemma FirstGapGrows(c: string, gaps: seq<string>, words: seq<string>)
    requires Separated(gaps, words) && NonePlain(c)
    ensures Separated([c + gaps[0]] + gaps[1..], words)
    ensures Woven([c + gaps[0]] + gaps[1..], words) == c + Woven(gaps, words)
  {
    assert ([c + gaps[0]] + gaps[1..])[1..] == gaps[1..];
  }

  lemma FirstWordGrows(c: string, gaps: seq<string>, words: seq<string>)
    requires Separated(gaps, words) && |words| > 0 && gaps[0] == "" && AllPlain(c)
    ensures Separated(gaps, [c + words[0]] + words[1..])
    ensures Woven(gaps, [c + words[0]] + words[1..]) == c + Woven(gaps, words)
  {
    hide Woven;
    var more := [c + words[0]] + words[1..];
    assert more[1..] == words[1..];
    FirstWordFirst(gaps, more);
    FirstWordFirst(gaps, words);
    assert c + (words[0] + Woven(gaps[1..], words[1..])) == (c + words[0]) + Woven(gaps[1..], words[1..]);
  }

  lemma FirstWordFirst(gaps: seq<string>, words: seq<string>)
    requires |gaps| == |words| + 1 && |words| > 0 && gaps[0] == ""
    ensures Woven(gaps, words) == words[0] + Woven(gaps[1..], words[1..])
  {
    assert "" + (words[0] + Woven(gaps[1..], words[1..])) == words[0] + Woven(gaps[1..], words[1..]);
  }

  lemma {:induction false} DashedOfWords(gaps: seq<string>, words: seq<string>)
    requires Separated(gaps, words)
    ensures var left := if gaps[0] != "" then "-" else "";
            var right := if |words| > 0 && gaps[|words|] != "" then "-" else "";
            Dashed(Woven(gaps, words)) == left + (JoinedByDashes(words) + right)
    decreases |words|
  {
    if |words| == 0 {
      assert gaps[0] + "" == gaps[0];
      DashedGap(gaps[0], "");
    } else {
      hide Dashed, Woven;
      FirstOfWords(gaps, words);
      DashedOfWords(gaps[1..], words[1..]);
      if |words| > 1 {
        var tail := JoinedByDashes(words[1..]);
        var right := if gaps[|words|] != "" then "-" else "";
        assert words[0] + ("-" + (tail + right)) == (words[0] + ("-" + tail)) + right;
      }
    }
  }

  lemma FirstOfWords(gaps: seq<string>, words: seq<string>)
    requires Separated(gaps, words) && |words| > 0
    ensures Dashed(Woven(gaps, words)) ==
            (if gaps[0] != "" then "-" else "") + (words[0] + Dashed(Woven(gaps[1..], words[1..])))
  {
    hide Dashed;
    var rest := Woven(gaps[1..], words[1..]);
    DashedGap(gaps[0], words[0] + rest);
    DashedWord(words[0], rest);
  }

  lemma {:induction false} DashedWord(w: string, rest: string)
    requires AllPlain(w)
    ensures Dashed(w + rest) == w + Dashed(rest)
    decreases |w|
  {
    if w == "" {
      assert w + rest == rest;
    } else {
      assert (w + rest)[1..] == w[1..] + rest;
      DashedWord(w[1..], rest);
    }
  }

  lemma DashedGap(g: string, rest: string)
    requires NonePlain(g) && (rest != "" ==> Plain(rest[0]))
    ensures Dashed(g + rest) == (if g != "" then "-" else "") + Dashed(rest)
  {
    if g == "" {
      assert g + rest == rest;
    } else {
      AfterGap(g, rest);
    }
  }

  lemma {:induction false} AfterGap(g: string, rest: string)
    requires NonePlain(g) && (rest != "" ==> Plain(rest[0]))
    ensures AfterOthers(g + rest) == rest
    decreases |g|
  {
    if g == "" {
      assert g + rest == rest;
    } else {
      assert (g + rest)[1..] == g[1..] + rest;
      AfterGap(g[1..], rest);
    }
  }

  lemma {:induction false} JoinedEnds(words: seq<string>)
    requires forall i :: 0 <= i < |words| ==> words[i] != "" && AllPlain(words[i])
    ensures var joined := JoinedByDashes(words);
            joined != "" ==> joined[0] != '-' && joined[|joined| - 1] != '-'
    ensures |words| > 0 ==> JoinedByDashes(words) != ""
    decreases |words|
  {
    if |words| > 1 {
      JoinedEnds(words[1..]);
    }
  }

  /** A device is named by the words of its name, and at random only if there are none. */
  lemma DeviceIdOfWords(gaps: seq<string>, words: seq<string>, random: string)
    requires Separated(gaps, words)
    ensures DeviceIdFor(Woven(gaps, words), random) ==
            if |words| > 0 then JoinedByDashes(words) else "igrill-" + random
  {
    hide Slug, Woven, JoinedByDashes;
    SlugOfWords(gaps, words);
    JoinedEnds(words);
    if |words| == 0 {
      NoWords(words);
    }
  }

  lemma NoWords(words: seq<string>)
    requires |words| == 0
    ensures JoinedByDashes(words) == ""
  {
  }
}
