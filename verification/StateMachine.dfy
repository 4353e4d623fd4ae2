/** The key-value state machine: the command parser behind Apply, and replay of a log. */
module StateMachines {
  import opened Common

  type Kv = map<Bytes, Bytes>

  const SET: Bytes := [115, 101, 116]
  const EQUALS: byte := 61
  const SPACE: byte := 32

  /** The number of bytes of the white-space character that `s` begins with, or 0. White space is Go's
      unicode.IsSpace on UTF-8 text; each multi-byte pattern starts with a lead byte, so matching bytes
      position by position finds exactly the characters a decoder would. */
  function SpaceWidth(s: Bytes): (w: nat)
    ensures w <= |s|
  {
    if s == [] then 0
    else if 9 <= s[0] <= 13 || s[0] == SPACE then 1
    else if |s| >= 2 && s[0] == 0xC2 && (s[1] == 0x85 || s[1] == 0xA0) then 2
    else if |s| >= 3 && s[0] == 0xE1 && s[1] == 0x9A && s[2] == 0x80 then 3
    else if |s| >= 3 && s[0] == 0xE2 && s[1] == 0x80 &&
            (0x80 <= s[2] <= 0x8A || s[2] == 0xA8 || s[2] == 0xA9 || s[2] == 0xAF) then 3
    else if |s| >= 3 && s[0] == 0xE2 && s[1] == 0x81 && s[2] == 0x9F then 3
    else if |s| >= 3 && s[0] == 0xE3 && s[1] == 0x80 && s[2] == 0x80 then 3
    else 0
  }

  /** strings.Fields: the maximal runs without white space, `word` being the run read so far. */
  function Fields(s: Bytes, word: Bytes): seq<Bytes>
    decreases |s|
  {
    var done := if word == [] then [] else [word];
    if s == [] then done
    else
      var w := SpaceWidth(s);
      if w > 0 then done + Fields(s[w..], []) else Fields(s[1..], word + [s[0]])
  }

  /** The position of the first '=' in `s`, or |s|. */
  function IndexOfEquals(s: Bytes): (i: nat)
    ensures i <= |s|
    ensures i < |s| ==> s[i] == EQUALS
    ensures forall k :: 0 <= k < i ==> s[k] != EQUALS
  {
    if s == [] || s[0] == EQUALS then 0 else 1 + IndexOfEquals(s[1..])
  }

  /** StateMachine.Apply: "set k=v" writes v under k; every other command leaves the map alone. */
  function ApplyCommand(kv: Kv, data: Bytes): Kv {
    var parts := Fields(data, []);
    if |parts| != 2 || parts[0] != SET then kv
    else
      var i := IndexOfEquals(parts[1]);
      if i == |parts[1]| then kv else kv[parts[1][..i] := parts[1][i + 1..]]
  }

  /** Applying every entry of `log` in order. */
  function Replay(kv: Kv, log: seq<Entry>): Kv {
    if log == [] then kv
    else ApplyCommand(Replay(kv, log[..|log| - 1]), log[|log| - 1].data)
  }

  lemma {:induction false} ReplayConcat(kv: Kv, a: seq<Entry>, b: seq<Entry>)
    ensures Replay(kv, a + b) == Replay(Replay(kv, a), b)
    decreases |b|
  {
    if b == [] {
      assert a + b == a;
    } else {
      assert (a + b)[..|a + b| - 1] == a + b[..|b| - 1];
      ReplayConcat(kv, a, b[..|b| - 1]);
    }
  }

  // ---- What the client protocol's "set k=v" does ----

  ghost predicate SpaceFree(s: Bytes) {
    forall k :: 0 <= k < |s| ==> SpaceWidth(s[k..]) == 0
  }

  function SetCommand(key: Bytes, value: Bytes): Bytes {
    SET + [SPACE] + key + [EQUALS] + value
  }

  lemma {:induction false} FieldsOfWord(s: Bytes, word: Bytes)
    requires SpaceFree(s) && word + s != []
    ensures Fields(s, word) == [word + s]
    decreases |s|
  {
    if s == [] {
      assert word + s == word;
    } else {
      assert s[0..] == s;
      assert forall k :: 0 <= k < |s[1..]| ==> s[1..][k..] == s[k + 1..];
      assert (word + [s[0]]) + s[1..] == word + s;
      FieldsOfWord(s[1..], word + [s[0]]);
    }
  }

  /** If Fields yields the single word `word + s`, nothing in `s` was white space. */
  lemma {:induction false} WordIsSpaceFree(s: Bytes, word: Bytes)
    requires Fields(s, word) == [word + s]
    ensures SpaceFree(s)
    decreases |s|
  {
    if s != [] {
      assert s[0..] == s;
      var w := SpaceWidth(s);
      if w > 0 {
        FieldsLength(s[w..], []);
        TotalOfOne(word + s);
        assert false;
      }
      assert (word + [s[0]]) + s[1..] == word + s;
      WordIsSpaceFree(s[1..], word + [s[0]]);
      forall k | 0 <= k < |s| ensures SpaceWidth(s[k..]) == 0 {
        if k > 0 { assert s[k..] == s[1..][k - 1..]; }
      }
    }
  }

  ghost function Total(words: seq<Bytes>): Bytes {
    if words == [] then [] else words[0] + Total(words[1..])
  }

  lemma TotalOfOne(w: Bytes)
    ensures Total([w]) == w
  {
    assert Total([w][1..]) == [];
  }

  lemma {:induction false} FieldsLength(s: Bytes, word: Bytes)
    ensures |Total(Fields(s, word))| <= |word| + |s|
    decreases |s|
  {
    TotalOfOne(word);
    if s != [] {
      var w := SpaceWidth(s);
      if w > 0 {
        FieldsLength(s[w..], []);
        var rest := Fields(s[w..], []);
        if word != [] { assert ([word] + rest)[1..] == rest; } else { assert [] + rest == rest; }
      } else {
        FieldsLength(s[1..], word + [s[0]]);
      }
    }
  }

  lemma FieldsOfSet(rest: Bytes)
    ensures Fields(SET + [SPACE] + rest, []) == [SET] + Fields(rest, [])
  {
    var s := SET + [SPACE] + rest;
    var s1, s2, s3 := s[1..], s[2..], s[3..];
    assert s1[1..] == s2 && s2[1..] == s3 && s3[1..] == rest;
    assert SpaceWidth(s3) == 1;
    assert s[0] == 115 && s1[0] == 101 && s2[0] == 116;
    assert Fields(s, []) == Fields(s1, [] + [s[0]]) && [] + [s[0]] == [115];
    assert Fields(s1, [115]) == Fields(s2, [115] + [s1[0]]) && [115] + [s1[0]] == [115, 101];
    assert Fields(s2, [115, 101]) == Fields(s3, [115, 101] + [s2[0]]) && [115, 101] + [s2[0]] == SET;
    assert Fields(s3, SET) == [SET] + Fields(s3[1..], []);
  }

  lemma FieldsOfCommand(key: Bytes, value: Bytes)
    ensures Fields(SetCommand(key, value), []) == [SET] + Fields(key + [EQUALS] + value, [])
  {
    assert SetCommand(key, value) == SET + [SPACE] + (key + [EQUALS] + value);
    FieldsOfSet(key + [EQUALS] + value);
  }

  lemma FirstEquals(key: Bytes, value: Bytes)
    ensures IndexOfEquals(key + [EQUALS] + value) <= |key|
    ensures EQUALS !in key ==> IndexOfEquals(key + [EQUALS] + value) == |key|
    ensures EQUALS in key ==> IndexOfEquals(key + [EQUALS] + value) < |key|
  {
    var word := key + [EQUALS] + value;
    assert word[|key|] == EQUALS;
    assert forall k :: 0 <= k < |key| ==> word[k] == key[k];
    if EQUALS in key {
      var k :| 0 <= k < |key| && key[k] == EQUALS;
      assert word[k] == EQUALS;
    }
  }

  lemma CleanSetCommand(kv: Kv, key: Bytes, value: Bytes, word: Bytes)
    requires word == key + [EQUALS] + value && SpaceFree(word)
    ensures IndexOfEquals(word) < |word|
    ensures ApplyCommand(kv, SetCommand(key, value))
            == kv[word[..IndexOfEquals(word)] := word[IndexOfEquals(word) + 1..]]
  {
    FieldsOfClean(key, value, word);
    FirstEquals(key, value);
  }

  lemma FieldsOfClean(key: Bytes, value: Bytes, word: Bytes)
    requires word == key + [EQUALS] + value && SpaceFree(word)
    ensures Fields(SetCommand(key, value), []) == [SET, word]
  {
    FieldsOfCommand(key, value);
    assert [] + word == word;
    FieldsOfWord(word, []);
  }

  /** A command that stores value under key has two words, the second of which is cut at its first '='. */
  lemma StoredWord(data: Bytes, key: Bytes, value: Bytes)
    requires ApplyCommand(map[], data) == map[key := value]
    ensures var parts := Fields(data, []);
      |parts| == 2 && parts[1] == key + [EQUALS] + value
  {
    var parts := Fields(data, []);
    assert key in ApplyCommand(map[], data);
    var p := parts[1];
    var i := IndexOfEquals(p);
    SameSingleton(p[..i], p[i + 1..], key, value);
    assert p == p[..i] + [p[i]] + p[i + 1..];
  }

  lemma SameSingleton(a: Bytes, b: Bytes, key: Bytes, value: Bytes)
    requires var one: Kv := map[a := b]; one == map[key := value]
    ensures a == key && b == value
  {
    var one: Kv := map[a := b];
    assert key in one && one[key] == value;
  }

  lemma StoredMeansClean(key: Bytes, value: Bytes)
    requires ApplyCommand(map[], SetCommand(key, value)) == map[key := value]
    ensures SpaceFree(key + [EQUALS] + value)
  {
    var word := key + [EQUALS] + value;
    FieldsOfCommand(key, value);
    StoredWord(SetCommand(key, value), key, value);
    var parts := Fields(SetCommand(key, value), []);
    assert Fields(word, []) == parts[1..] == [word];
    assert [] + word == word;
    WordIsSpaceFree(word, []);
  }

  /** "set k=v" stores exactly v under k, whatever the map held, if and only if the word k=v contains no
      white space and k contains no '='. */
  lemma SetCommandStores(key: Bytes, value: Bytes)
    ensures (forall kv: Kv :: ApplyCommand(kv, SetCommand(key, value)) == kv[key := value])
            <==> SpaceFree(key + [EQUALS] + value) && EQUALS !in key
  {
    var empty: Kv := map[];
    var word := key + [EQUALS] + value;
    FirstEquals(key, value);
    if SpaceFree(word) {
      forall kv: Kv
        ensures ApplyCommand(kv, SetCommand(key, value))
            == kv[word[..IndexOfEquals(word)] := word[IndexOfEquals(word) + 1..]]
      {
        CleanSetCommand(kv, key, value, word);
      }
      if EQUALS in key {
        assert |word[..IndexOfEquals(word)]| < |key|;
        assert key !in empty[word[..IndexOfEquals(word)] := word[IndexOfEquals(word) + 1..]];
        assert key in empty[key := value];
        assert ApplyCommand(empty, SetCommand(key, value)) != empty[key := value];
      } else {
        assert word[..|key|] == key && word[|key| + 1..] == value;
      }
    } else if forall kv: Kv :: ApplyCommand(kv, SetCommand(key, value)) == kv[key := value] {
      assert ApplyCommand(empty, SetCommand(key, value)) == empty[key := value];
      StoredMeansClean(key, value);
      assert false;
    }
  }

  /** The no-op a new leader appends never changes the map. */
  const NO_OP: Bytes := [110, 111, 45, 111, 112]

  lemma NoOpChangesNothing(kv: Kv)
    ensures ApplyCommand(kv, NO_OP) == kv
  {
    assert SpaceFree(NO_OP);
    FieldsOfWord(NO_OP, []);
    assert [] + NO_OP == NO_OP;
  }

  /** The in-place state machine of a node. */
  class StateMachine {
    var data: Kv

    constructor ()
      ensures data == map[]
    {
      data := map[];
    }

    method Apply(entry: Entry)
      modifies this
      ensures data == ApplyCommand(old(data), entry.data)
    {
      var parts := Fields(entry.data, []);
      if |parts| != 2 || parts[0] != SET {
        return;
      }
      var i := IndexOfEquals(parts[1]);
      if i == |parts[1]| {
        return;
      }
      data := data[parts[1][..i] := parts[1][i + 1..]];
    }

    method Restore(contents: Kv)
      modifies this
      ensures data == contents
    {
      data := contents;
    }
  }
}
