/** What a command is, said without the parser: words, white space between and around them, and the first '='
    of the second word. White space is given by Unicode code points and their UTF-8 bytes. */
module Commands {
  import opened Common
  import opened Readers
  import opened StateMachines

  // ---- White space ----

  /** unicode.IsSpace. */
  predicate IsSpace(rune: nat) {
    || 9 <= rune <= 13 || rune == 32 || rune == 0x85 || rune == 0xA0 || rune == 0x1680 || 0x2000 <= rune <= 0x200A
    || rune == 0x2028 || rune == 0x2029 || rune == 0x202F || rune == 0x205F || rune == 0x3000
  }

  /** UTF-8, for the code points of up to three bytes. */
  function Utf8(rune: nat): (u: Bytes)
    requires rune < 0x10000
    ensures u != []
  {
    if rune < 0x80 then [rune]
    else if rune < 0x800 then [0xC0 + rune / 64, 0x80 + rune % 64]
    else [0xE0 + rune / 4096, 0x80 + rune / 64 % 64, 0x80 + rune % 64]
  }

  /** `s` begins with the white-space character `rune`. */
  ghost predicate BeginsWith(s: Bytes, rune: nat) {
    IsSpace(rune) && Utf8(rune) <= s
  }

  /** The parser's test for white space finds the encoding of a white-space character, whole, or none. */
  lemma SpaceWidthMeaning(s: Bytes)
    ensures SpaceWidth(s) == 0 <==> forall rune :: !BeginsWith(s, rune)
    ensures forall rune :: BeginsWith(s, rune) ==> SpaceWidth(s) == |Utf8(rune)|
  {
    forall rune | BeginsWith(s, rune) ensures SpaceWidth(s) == |Utf8(rune)| > 0 { WidthOf(s, rune); }
    if SpaceWidth(s) > 0 { var rune := RuneAt(s); }
  }

  lemma WidthOf(s: Bytes, rune: nat)
    requires BeginsWith(s, rune)
    ensures SpaceWidth(s) == |Utf8(rune)| > 0
  {
    var u := Utf8(rune);
    assert forall k :: 0 <= k < |u| ==> s[k] == u[k];
  }

  lemma RuneAt(s: Bytes) returns (rune: nat)
    requires SpaceWidth(s) > 0
    ensures BeginsWith(s, rune)
  {
    var w, lead: int := SpaceWidth(s), s[0];
    if w == 3 {
      var second: int, third: int := s[1], s[2];
      rune := (lead - 0xE0) * 4096 + (second - 0x80) * 64 + (third - 0x80);
    } else {
      rune := if w == 1 then s[0] else s[1];
    }
  }

  /** A run of whole white-space characters. */
  ghost predicate Blank(s: Bytes)
    decreases |s|
  {
    s == [] || exists rune :: BeginsWith(s, rune) && Blank(s[|Utf8(rune)|..])
  }

  /** No white-space character begins anywhere in `s`. */
  ghost predicate Solid(s: Bytes) {
    s != [] && forall k, rune :: 0 <= k < |s| ==> !BeginsWith(s[k..], rune)
  }

  /** Nothing, or something that begins with white space. */
  ghost predicate Breaks(s: Bytes) {
    s == [] || exists rune :: BeginsWith(s, rune)
  }

  /** The words of `s` in order: each is a solid run, with white space or the end of the text on either side. */
  ghost predicate Reads(s: Bytes, words: seq<Bytes>)
    decreases |words|
  {
    if words == [] then Blank(s)
    else exists gap, rest :: FirstWord(s, gap, words[0], rest) && Reads(rest, words[1..])
  }

  ghost predicate FirstWord(s: Bytes, gap: Bytes, word: Bytes, rest: Bytes) {
    Blank(gap) && Solid(word) && Breaks(rest) && s == gap + (word + rest)
  }

  // ---- The parser finds the words ----

  lemma StillBegins(s: Bytes, rest: Bytes, rune: nat)
    requires BeginsWith(s, rune)
    ensures BeginsWith(s + rest, rune)
  {
  }

  lemma LeadAndLaterBytes(rune: nat)
    requires IsSpace(rune)
    ensures var u := Utf8(rune);
      (u[0] < 0x80 || u[0] >= 0xC2) && forall k :: 1 <= k < |u| ==> 0x80 <= u[k] < 0xC0
  {
  }

  /** A white-space character does not begin in a word and end behind it: its later bytes never begin one. */
  lemma NoneStraddles(word: Bytes, rest: Bytes, rune: nat)
    requires word != [] && Breaks(rest) && BeginsWith(word + rest, rune)
    ensures BeginsWith(word, rune)
  {
    var u, s := Utf8(rune), word + rest;
    assert s[..|u|] == u;
    LeadAndLaterBytes(rune);
    if |word| < |u| {
      var other :| BeginsWith(rest, other);
      Ends(word, rest, u, Utf8(other));
      LeadAndLaterBytes(other);
    } else {
      assert s[..|u|] == word[..|u|];
    }
  }

  lemma Ends(word: Bytes, rest: Bytes, u: Bytes, v: Bytes)
    requires 0 < |word| < |u| && u <= word + rest && v != [] && v <= rest
    ensures u[|word|] == v[0]
  {
    assert (word + rest)[|word|] == u[|word|];
  }

  lemma BlankStep(gap: Bytes, rest: Bytes, rune: nat)
    requires BeginsWith(gap, rune)
    ensures Fields(gap + rest, []) == Fields(gap[|Utf8(rune)|..] + rest, [])
  {
    StillBegins(gap, rest, rune);
    SpaceWidthMeaning(gap + rest);
    SkipsSpace(gap + rest);
    assert (gap + rest)[|Utf8(rune)|..] == gap[|Utf8(rune)|..] + rest;
  }

  lemma SkipsSpace(s: Bytes)
    requires SpaceWidth(s) > 0
    ensures Fields(s, []) == Fields(s[SpaceWidth(s)..], [])
  {
  }

  lemma {:induction false} FieldsOfBlank(gap: Bytes, rest: Bytes)
    requires Blank(gap)
    ensures Fields(gap + rest, []) == Fields(rest, [])
    decreases |gap|
  {
    if gap == [] {
      assert gap + rest == rest;
    } else {
      var rune :| BeginsWith(gap, rune) && Blank(gap[|Utf8(rune)|..]);
      BlankStep(gap, rest, rune);
      FieldsOfBlank(gap[|Utf8(rune)|..], rest);
    }
  }

  lemma WordEnds(word: Bytes, rest: Bytes)
    requires word != [] && Breaks(rest)
    ensures Fields(rest, word) == [word] + Fields(rest, [])
  {
    if rest != [] {
      var rune :| BeginsWith(rest, rune);
      SpaceWidthMeaning(rest);
      StillBegins(rest, [], rune);
      var w := SpaceWidth(rest);
      assert Fields(rest, word) == [word] + Fields(rest[w..], []);
      assert [] + Fields(rest[w..], []) == Fields(rest[w..], []);
    }
  }

  lemma {:induction false} FieldsOfWordAnd(word: Bytes, read: Bytes, rest: Bytes)
    requires Breaks(rest) && read + word != [] && (word == [] || Solid(word))
    ensures Fields(word + rest, read) == [read + word] + Fields(rest, [])
    decreases |word|
  {
    if word == [] {
      assert word + rest == rest && read + word == read;
      WordEnds(read, rest);
    } else {
      var s := word + rest;
      assert word[0..] == word;
      forall rune ensures !BeginsWith(s, rune) {
        if BeginsWith(s, rune) { NoneStraddles(word, rest, rune); }
      }
      SpaceWidthMeaning(s);
      assert s[1..] == word[1..] + rest && (read + [s[0]]) + word[1..] == read + word;
      assert forall k :: 0 <= k < |word| - 1 ==> word[1..][k..] == word[k + 1..];
      FieldsOfWordAnd(word[1..], read + [s[0]], rest);
    }
  }

  lemma FieldsFrom(s: Bytes, gap: Bytes, word: Bytes, rest: Bytes)
    requires FirstWord(s, gap, word, rest)
    ensures Fields(s, []) == [word] + Fields(rest, [])
  {
    FieldsOfBlank(gap, word + rest);
    assert [] + word == word;
    FieldsOfWordAnd(word, [], rest);
  }

  lemma {:induction false} ReadsAreFields(s: Bytes, words: seq<Bytes>)
    requires Reads(s, words)
    ensures Fields(s, []) == words
    decreases |words|
  {
    if words == [] {
      FieldsOfBlank(s, []);
      assert s + [] == s;
    } else {
      var gap, rest :| FirstWord(s, gap, words[0], rest) && Reads(rest, words[1..]);
      FieldsFrom(s, gap, words[0], rest);
      ReadsAreFields(rest, words[1..]);
      assert [words[0]] + words[1..] == words;
    }
  }

  // ---- Every text has words ----

  lemma BlankGrows(rune: nat, more: Bytes)
    requires IsSpace(rune) && Blank(more)
    ensures Blank(Utf8(rune) + more)
  {
    var gap := Utf8(rune) + more;
    assert gap[|Utf8(rune)|..] == more && BeginsWith(gap, rune);
  }

  /** The white space a text begins with. */
  lemma {:induction false} SkipBlank(s: Bytes) returns (gap: Bytes, rest: Bytes)
    ensures Blank(gap) && s == gap + rest && (rest == [] || SpaceWidth(rest) == 0)
    decreases |s|
  {
    if SpaceWidth(s) == 0 {
      gap, rest := [], s;
    } else {
      var rune := RuneAt(s);
      var behind := Behind(s, rune);
      gap, rest := SkipBlank(behind);
      BlankGrows(rune, gap);
      Assoc(Utf8(rune), gap, rest);
      gap := Utf8(rune) + gap;
    }
  }

  lemma Behind(s: Bytes, rune: nat) returns (rest: Bytes)
    requires BeginsWith(s, rune)
    ensures s == Utf8(rune) + rest && |rest| < |s|
  {
    rest := s[|Utf8(rune)|..];
  }

  lemma SolidGrows(b: byte, more: Bytes, rest: Bytes)
    requires SpaceWidth([b] + more + rest) == 0 && (more == [] || Solid(more))
    ensures Solid([b] + more)
  {
    var word := [b] + more;
    SpaceWidthMeaning(word + rest);
    forall k, rune | 0 <= k < |word| ensures !BeginsWith(word[k..], rune) {
      if k > 0 {
        assert word[k..] == more[k - 1..];
      } else {
        assert word[0..] == word;
        if BeginsWith(word, rune) { StillBegins(word, rest, rune); }
      }
    }
  }

  /** The word a text begins with. */
  lemma {:induction false} TakeWord(s: Bytes) returns (word: Bytes, rest: Bytes)
    requires s != [] && SpaceWidth(s) == 0
    ensures Solid(word) && Breaks(rest) && s == word + rest
    decreases |s|
  {
    var more := [];
    if |s| > 1 && SpaceWidth(s[1..]) == 0 {
      more, rest := TakeWord(s[1..]);
    } else {
      rest := s[1..];
      if rest != [] { var rune := RuneAt(rest); }
    }
    word := [s[0]] + more;
    assert s == word + rest;
    SolidGrows(s[0], more, rest);
  }

  lemma {:induction false} SomeWords(s: Bytes) returns (words: seq<Bytes>)
    ensures Reads(s, words)
    decreases |s|
  {
    var gap, text := SkipBlank(s);
    if text == [] {
      words := [];
      assert gap == s;
    } else {
      var word, rest := TakeWord(text);
      var more := SomeWords(rest);
      words := [word] + more;
      assert words[1..] == more && FirstWord(s, gap, words[0], rest);
    }
  }

  /** strings.Fields gives the words of the text, all of them and in order. */
  lemma FieldsAreWords(s: Bytes, words: seq<Bytes>)
    ensures Fields(s, []) == words <==> Reads(s, words)
  {
    var found := SomeWords(s);
    ReadsAreFields(s, found);
    if Reads(s, words) { ReadsAreFields(s, words); }
  }

  // ---- Commands ----

  /** The command is "set k=v" with any white space around and between the two words, and k=v is cut at its
      first '='. */
  ghost predicate Assigns(data: Bytes, key: Bytes, value: Bytes) {
    && EQUALS !in key && Solid(key + [EQUALS] + value)
    && exists before, between, after :: Spaced(data, before, between, key + [EQUALS] + value, after)
  }

  ghost predicate Spaced(data: Bytes, before: Bytes, between: Bytes, word: Bytes, after: Bytes) {
    && Blank(before) && Blank(between) && between != [] && Blank(after)
    && data == before + (SET + (between + (word + after)))
  }

  lemma SetIsSolid()
    ensures Solid(SET)
  {
    forall k, rune | 0 <= k < 3 ensures !BeginsWith(SET[k..], rune) {
      assert SET[k..][0] == SET[k] >= 101;
      SpaceWidthMeaning(SET[k..]);
    }
  }

  lemma BlankBreaks(gap: Bytes, rest: Bytes)
    requires Blank(gap) && (gap == [] ==> rest == [])
    ensures Breaks(gap + rest)
  {
    if gap != [] {
      var rune :| BeginsWith(gap, rune) && Blank(gap[|Utf8(rune)|..]);
      StillBegins(gap, rest, rune);
    } else {
      assert gap + rest == [];
    }
  }

  lemma SpacedIsTwoWords(data: Bytes, before: Bytes, between: Bytes, word: Bytes, after: Bytes)
    requires Spaced(data, before, between, word, after) && Solid(word)
    ensures Reads(data, [SET, word])
  {
    SetIsSolid();
    BlankBreaks(after, []);
    assert after + [] == after;
    BlankBreaks(between, word + after);
    var words, rest := [SET, word], between + (word + after);
    assert words[1..] == [word] && [word][1..] == [];
    assert FirstWord(rest, between, [word][0], after) && Reads(after, [word][1..]);
    assert FirstWord(data, before, words[0], rest) && Reads(rest, words[1..]);
  }

  lemma TwoWordsAreSpaced(data: Bytes, word: Bytes) returns (before: Bytes, between: Bytes, after: Bytes)
    requires Reads(data, [SET, word])
    ensures Spaced(data, before, between, word, after) && Solid(word)
  {
    var words, rest := [SET, word], [];
    before, rest :| FirstWord(data, before, words[0], rest) && Reads(rest, words[1..]);
    assert words[1..] == [word] && [word][1..] == [];
    between, after :| FirstWord(rest, between, [word][0], after) && Reads(after, [word][1..]);
    assert word[0..] == word;
    assert [] + (word + after) == word + after;
    if between == [] {
      var rune :| BeginsWith(rest, rune);
      NoneStraddles(word, after, rune);
    }
  }

  lemma TwoWordCommand(kv: Kv, data: Bytes, word: Bytes)
    requires Fields(data, []) == [SET, word]
    ensures ApplyCommand(kv, data) ==
            if EQUALS !in word then kv else kv[word[..IndexOfEquals(word)] := word[IndexOfEquals(word) + 1..]]
  {
  }

  lemma OtherCommand(kv: Kv, data: Bytes)
    requires |Fields(data, [])| != 2 || Fields(data, [])[0] != SET
    ensures ApplyCommand(kv, data) == kv
  {
  }

  lemma AssignsStores(kv: Kv, data: Bytes, key: Bytes, value: Bytes)
    requires Assigns(data, key, value)
    ensures ApplyCommand(kv, data) == kv[key := value]
  {
    var word := key + [EQUALS] + value;
    var before, between, after :| Spaced(data, before, between, word, after);
    SpacedIsTwoWords(data, before, between, word, after);
    ReadsAreFields(data, [SET, word]);
    TwoWordCommand(kv, data, word);
    FirstEquals(key, value);
    assert word[|key|] == EQUALS && word[..|key|] == key && word[|key| + 1..] == value;
  }

  lemma StoresOnlyAssigned(kv: Kv, data: Bytes)
    requires forall key, value :: !Assigns(data, key, value)
    ensures ApplyCommand(kv, data) == kv
  {
    var parts := Fields(data, []);
    if |parts| == 2 && parts[0] == SET {
      var word := parts[1];
      assert parts == [SET, word];
      TwoWordCommand(kv, data, word);
      FieldsAreWords(data, [SET, word]);
      var before, between, after := TwoWordsAreSpaced(data, word);
      if EQUALS in word { CutAtEquals(data, word, before, between, after); }
    } else {
      OtherCommand(kv, data);
    }
  }

  lemma CutAtEquals(data: Bytes, word: Bytes, before: Bytes, between: Bytes, after: Bytes)
    requires Spaced(data, before, between, word, after) && Solid(word) && EQUALS in word
    ensures Assigns(data, word[..IndexOfEquals(word)], word[IndexOfEquals(word) + 1..])
  {
    var i := IndexOfEquals(word);
    assert word == word[..i] + [EQUALS] + word[i + 1..];
  }

  /** A command changes the map only if it assigns, and then it stores that value under that key; every other
      byte string leaves every map as it is. */
  lemma CommandMeaning(kv: Kv, data: Bytes)
    ensures forall key, value :: Assigns(data, key, value) ==> ApplyCommand(kv, data) == kv[key := value]
    ensures (forall key, value :: !Assigns(data, key, value)) ==> ApplyCommand(kv, data) == kv
  {
    forall key, value | Assigns(data, key, value) ensures ApplyCommand(kv, data) == kv[key := value] {
      AssignsStores(kv, data, key, value);
    }
    if forall key, value :: !Assigns(data, key, value) { StoresOnlyAssigned(kv, data); }
  }
}
