/**
 * Redaction of card data in logged request bodies: every `"key":"value"` whose
 * key is cardHolderName, cardnumber or securitycode (ASCII case ignored) and
 * whose value is a non-empty run of characters other than '"' is rewritten to
 * `"key":"***"`, keeping the key as written. Matches are found left to right and
 * do not overlap, trying the three keys in that order at each position.
 */
module Redaction {
  import opened Wrappers

  const SENSITIVE_KEYS: seq<string> := ["cardHolderName", "cardnumber", "securitycode"]
  const MASK: string := "***"
  /** The characters between a key and its value. */
  const SEPARATOR: string := "\":\""

  function Lower(c: char): char {
    if 'A' <= c <= 'Z' then (c as int + 32) as char else c
  }

  predicate EqualIgnoringCase(a: string, b: string) {
    |a| == |b| && forall i :: 0 <= i < |a| ==> Lower(a[i]) == Lower(b[i])
  }

  /** The length of the leading run of characters other than '"'. */
  function QuoteFreeRun(s: string): (n: nat)
    ensures n <= |s|
    ensures forall i :: 0 <= i < n ==> s[i] != '"'
    ensures n < |s| ==> s[n] == '"'
  {
    if s == [] || s[0] == '"' then 0 else 1 + QuoteFreeRun(s[1..])
  }

  /** A field found at the start of a string: the lengths of its key and of its value. */
  datatype Field = Field(keyLength: nat, valueLength: nat) {
    /** Opening quote, key, separator, value, closing quote. */
    function Length(): nat {
      keyLength + valueLength + 5
    }
  }

  /** A match of `"k":"value"` at the start of `s`, `k` compared without case. */
  function MatchKey(s: string, k: string): (m: Option<Field>)
    ensures m.Some? ==> m.value.keyLength == |k| && 0 < m.value.valueLength && m.value.Length() <= |s|
  {
    if |s| >= |k| + 4 && s[0] == '"' && EqualIgnoringCase(s[1..1 + |k|], k) && s[1 + |k|..|k| + 4] == SEPARATOR then
      var n := QuoteFreeRun(s[|k| + 4..]);
      if n > 0 && |k| + 4 + n < |s| then Some(Field(|k|, n)) else None
    else None
  }

  /** The first of `keys` that matches at the start of `s`. */
  function FirstMatch(s: string, keys: seq<string>): (m: Option<Field>)
    ensures m.Some? ==> 0 < m.value.valueLength && m.value.Length() <= |s| && s[0] == '"'
  {
    if keys == [] then None
    else if MatchKey(s, keys[0]).Some? then MatchKey(s, keys[0])
    else FirstMatch(s, keys[1..])
  }

  function MatchAt(s: string): (m: Option<Field>)
    ensures m.Some? ==> 0 < m.value.valueLength && m.value.Length() <= |s| && s[0] == '"'
  {
    FirstMatch(s, SENSITIVE_KEYS)
  }

  /** `s` contains no '"', so no field can start anywhere in it. */
  predicate QuoteFree(s: string)
    decreases |s|
  {
    s == [] || (s[0] != '"' && QuoteFree(s[1..]))
  }

  /** The body with every sensitive value masked; a body without quotes has nothing to mask. */
  function Redact(s: string): (r: string)
    ensures QuoteFree(s) ==> r == s
    decreases |s|
  {
    if s == [] then []
    else match MatchAt(s)
      case Some(f) => "\"" + s[1..1 + f.keyLength] + SEPARATOR + MASK + "\"" + Redact(s[f.Length()..])
      case None => [s[0]] + Redact(s[1..])
  }

  /** No sensitive field starts at any of the first `n` positions of `s`. */
  predicate NoFieldBefore(s: string, n: nat)
    requires n <= |s|
  {
    forall i :: 0 <= i < n ==> MatchAt(s[i..]).None?
  }

  /** Where no field starts, the first character is copied and redaction moves on by one. */
  lemma RedactPlainHead(s: string)
    requires s != [] && MatchAt(s).None?
    ensures Redact(s) == [s[0]] + Redact(s[1..])
  {
  }

  /** No field starts in the first `n` positions of `s` iff none starts at its head and none in the next `n - 1`. */
  lemma NoFieldBeforeTail(s: string, n: nat)
    requires 0 < n <= |s| && NoFieldBefore(s, n)
    ensures MatchAt(s).None? && NoFieldBefore(s[1..], n - 1)
  {
    assert MatchAt(s[0..]).None? && s[0..] == s;
    forall i | 0 <= i < n - 1
      ensures MatchAt(s[1..][i..]).None?
    {
      assert MatchAt(s[i + 1..]).None?;
      assert s[1..][i..] == s[i + 1..];
    }
  }

  /** The head of `s` followed by the first `n - 1` characters of its tail is its first `n`. */
  lemma HeadAndTail(s: string, n: nat, rest: string)
    requires 0 < n <= |s|
    ensures s[1..][n - 1..] == s[n..]
    ensures [s[0]] + (s[1..][..n - 1] + rest) == s[..n] + rest
  {
    assert [s[0]] + s[1..][..n - 1] == s[..n];
  }

  /** One step of the copy: a plain head character, then the copied rest of the prefix. */
  lemma PrefixStep(s: string, n: nat)
    requires 0 < n <= |s| && MatchAt(s).None?
    requires Redact(s[1..]) == s[1..][..n - 1] + Redact(s[n..])
    ensures Redact(s) == s[..n] + Redact(s[n..])
  {
    RedactPlainHead(s);
    HeadAndTail(s, n, Redact(s[n..]));
  }

  /** The first `n` characters, where no sensitive field starts, are copied verbatim. */
  lemma {:induction false} RedactKeepsPlainPrefix(s: string, n: nat)
    requires n <= |s| && NoFieldBefore(s, n)
    ensures Redact(s) == s[..n] + Redact(s[n..])
    decreases n
  {
    if n == 0 {
      assert s[..0] + Redact(s[0..]) == Redact(s);
    } else {
      NoFieldBeforeTail(s, n);
      RedactKeepsPlainPrefix(s[1..], n - 1);
      HeadAndTail(s, n, []);
      PrefixStep(s, n);
    }
  }

  /** A field starts with a quote. */
  lemma NoMatchWithoutQuote(s: string)
    requires s == [] || s[0] != '"'
    ensures MatchAt(s).None?
  {
    assert MatchKey(s, SENSITIVE_KEYS[0]).None?;
    assert MatchKey(s, SENSITIVE_KEYS[1]).None?;
    assert MatchKey(s, SENSITIVE_KEYS[2]).None?;
    assert FirstMatch(s, SENSITIVE_KEYS[3..]).None?;
    assert FirstMatch(s, SENSITIVE_KEYS[2..]).None?;
    assert FirstMatch(s, SENSITIVE_KEYS[1..]).None?;
  }

  /** A body without any sensitive field is logged unchanged. */
  lemma NoFieldNoChange(s: string)
    requires NoFieldBefore(s, |s|)
    ensures Redact(s) == s
  {
    RedactKeepsPlainPrefix(s, |s|);
    assert s[..|s|] == s && s[|s|..] == [];
  }

  /** The key as written, followed by the separator, matched against one sensitive key. */
  predicate IsSensitiveKey(key: string) {
    EqualIgnoringCase(key, SENSITIVE_KEYS[0]) || EqualIgnoringCase(key, SENSITIVE_KEYS[1]) || EqualIgnoringCase(key, SENSITIVE_KEYS[2])
  }

  /** A field whose key equals `k` up to case matches `k`, with exactly its key and value lengths. */
  lemma FieldMatchesKey(key: string, value: string, rest: string, k: string)
    requires EqualIgnoringCase(key, k) && value != [] && '"' !in value
    ensures MatchKey("\"" + key + SEPARATOR + value + "\"" + rest, k) == Some(Field(|key|, |value|))
  {
    var s := "\"" + key + SEPARATOR + value + "\"" + rest;
    var n := |key|;
    assert s[1..1 + n] == key;
    assert s[1 + n..n + 4] == SEPARATOR;
    var tail := s[n + 4..];
    assert tail == value + ("\"" + rest);
    QuoteFreeRunOf(value, "\"" + rest);
  }

  lemma FieldMatches(key: string, value: string, rest: string)
    requires IsSensitiveKey(key) && value != [] && '"' !in value
    ensures var s := "\"" + key + SEPARATOR + value + "\"" + rest;
            MatchAt(s) == Some(Field(|key|, |value|))
  {
    var s := "\"" + key + SEPARATOR + value + "\"" + rest;
    var k := |key|;
    var keys := SENSITIVE_KEYS;
    if EqualIgnoringCase(key, keys[0]) {
      FieldMatchesKey(key, value, rest, keys[0]);
    } else if EqualIgnoringCase(key, keys[1]) {
      FieldMatchesKey(key, value, rest, keys[1]);
      assert s[1..1 + k] == key;
      assert Lower(s[5]) == 'n';
      if |s| >= 18 {
        assert s[1..15][4] == s[5] && Lower(keys[0][4]) == 'h';
      }
      assert MatchKey(s, keys[0]).None?;
      assert keys[1..][0] == keys[1];
      assert FirstMatch(s, keys[1..]) == Some(Field(k, |value|));
    } else {
      FieldMatchesKey(key, value, rest, keys[2]);
      assert s[1..1 + k] == key;
      assert Lower(s[1]) == 's';
      assert MatchKey(s, keys[0]).None?;
      assert MatchKey(s, keys[1]).None?;
      assert keys[1..][0] == keys[1] && keys[1..][1..] == keys[2..];
      assert keys[2..][0] == keys[2];
      assert FirstMatch(s, keys[2..]) == Some(Field(k, |value|));
      assert FirstMatch(s, keys[1..]) == Some(Field(k, |value|));
    }
  }

  lemma {:induction false} QuoteFreeRunOf(v: string, rest: string)
    requires '"' !in v && rest != [] && rest[0] == '"'
    ensures QuoteFreeRun(v + rest) == |v|
    decreases |v|
  {
    if v == [] {
      assert v + rest == rest;
    } else {
      assert (v + rest)[1..] == v[1..] + rest;
      QuoteFreeRunOf(v[1..], rest);
    }
  }

  /** A match against one key is that key in any case, the separator, a non-empty quote-free value and a closing quote. */
  lemma MatchKeySound(s: string, k: string)
    requires MatchKey(s, k).Some?
    ensures var n := MatchKey(s, k).value.valueLength;
            && |k| + 4 + n < |s|
            && s[0] == '"'
            && EqualIgnoringCase(s[1..1 + |k|], k)
            && s[1 + |k|..|k| + 4] == SEPARATOR
            && n > 0
            && (forall i :: |k| + 4 <= i < |k| + 4 + n ==> s[i] != '"')
            && s[|k| + 4 + n] == '"'
  {
    var t := s[|k| + 4..];
    var n := QuoteFreeRun(t);
    forall i | |k| + 4 <= i < |k| + 4 + n
      ensures s[i] != '"'
    {
      assert s[i] == t[i - (|k| + 4)];
    }
    assert s[|k| + 4 + n] == t[n];
  }

  /**
   * Soundness of the matcher: whatever it reports is a quote, one of the
   * sensitive keys in any case, the separator, a non-empty run of characters
   * other than '"', and the closing quote.
   */
  lemma MatchAtSound(s: string)
    requires MatchAt(s).Some?
    ensures var f := MatchAt(s).value;
            && s[0] == '"'
            && IsSensitiveKey(s[1..1 + f.keyLength])
            && s[1 + f.keyLength..f.keyLength + 4] == SEPARATOR
            && f.valueLength > 0
            && (forall i :: f.keyLength + 4 <= i < f.Length() - 1 ==> s[i] != '"')
            && s[f.Length() - 1] == '"'
  {
    var keys := SENSITIVE_KEYS;
    assert keys[1..][0] == keys[1] && keys[1..][1..] == keys[2..];
    assert keys[2..][0] == keys[2] && keys[2..][1..] == [];
    var key: string;
    if MatchKey(s, keys[0]).Some? {
      key := keys[0];
    } else if MatchKey(s, keys[1]).Some? {
      key := keys[1];
      assert FirstMatch(s, keys[1..]) == MatchKey(s, keys[1]);
    } else {
      key := keys[2];
      assert FirstMatch(s, keys[1..]) == FirstMatch(s, keys[2..]);
      assert FirstMatch(s, keys[2..]) == MatchKey(s, keys[2]);
    }
    assert MatchAt(s) == MatchKey(s, key);
    MatchKeySound(s, key);
  }

  /** A sensitive field has its value masked, its key kept as written, and the rest is redacted in turn. */
  lemma RedactField(key: string, value: string, rest: string)
    requires IsSensitiveKey(key) && value != [] && '"' !in value
    ensures Redact("\"" + key + SEPARATOR + value + "\"" + rest) == "\"" + key + SEPARATOR + MASK + "\"" + Redact(rest)
  {
    var s := "\"" + key + SEPARATOR + value + "\"" + rest;
    FieldMatches(key, value, rest);
    assert s[1..1 + |key|] == key;
    assert s[Field(|key|, |value|).Length()..] == rest;
  }

  /** Every sensitive key begins with 'c' or 's' (in either case). */
  lemma NoMatchBadInitial(s: string)
    requires |s| >= 2 && Lower(s[1]) != 'c' && Lower(s[1]) != 's'
    ensures MatchAt(s).None?
  {
    if |s| >= 18 { assert s[1..15][0] == s[1]; }
    assert MatchKey(s, SENSITIVE_KEYS[0]).None?;
    if |s| >= 14 { assert s[1..11][0] == s[1]; }
    assert MatchKey(s, SENSITIVE_KEYS[1]).None?;
    if |s| >= 16 { assert s[1..13][0] == s[1]; }
    assert MatchKey(s, SENSITIVE_KEYS[2]).None?;
    assert FirstMatch(s, SENSITIVE_KEYS[3..]).None?;
    assert FirstMatch(s, SENSITIVE_KEYS[2..]).None?;
    assert FirstMatch(s, SENSITIVE_KEYS[1..]).None?;
  }

  /** The rest of the example body, `,"amount":<amount>}`, holds no sensitive field. */
  lemma AmountTailHasNoField(amount: string)
    requires '"' !in amount
    ensures var tail := ",\"amount\":" + amount + "}";
            NoFieldBefore(tail, |tail|)
  {
    var tail := ",\"amount\":" + amount + "}";
    forall i | 0 <= i < |tail|
      ensures MatchAt(tail[i..]).None?
    {
      if i == 1 {
        assert tail[i..][1] == 'a';
        NoMatchBadInitial(tail[i..]);
      } else if i == 8 {
        assert tail[i..][1] == ':';
        NoMatchBadInitial(tail[i..]);
      } else {
        if 10 <= i < 10 + |amount| {
          assert tail[i] == amount[i - 10];
        }
        assert tail[i..][0] == tail[i] != '"';
        NoMatchWithoutQuote(tail[i..]);
      }
    }
  }

  lemma AmountTailUnchanged(amount: string)
    requires '"' !in amount
    ensures Redact(",\"amount\":" + amount + "}") == ",\"amount\":" + amount + "}"
  {
    AmountTailHasNoField(amount);
    NoFieldNoChange(",\"amount\":" + amount + "}");
  }

  /** A character that cannot open a field is copied as is. */
  lemma RedactPlainChar(c: char, rest: string)
    requires c != '"'
    ensures Redact([c] + rest) == [c] + Redact(rest)
  {
    NoMatchWithoutQuote([c] + rest);
    assert ([c] + rest)[1..] == rest;
  }

  /** How the example body splits into the opening brace, the card field and the rest. */
  lemma ExampleShape(amount: string, value: string)
    ensures "{\"cardnumber\":\"" + value + "\",\"amount\":" + amount + "}"
         == ['{'] + ("\"cardnumber\":\"" + value + "\"" + (",\"amount\":" + amount + "}"))
  {
  }

  /**
   * A card number is masked while the amount beside it is logged as is: for
   * instance `{"cardnumber":"4111111111111111","amount":100}` is logged as
   * `{"cardnumber":"***","amount":100}`.
   */
  lemma CardNumberExample(number: string, amount: string)
    requires number != [] && '"' !in number && '"' !in amount
    ensures Redact("{\"cardnumber\":\"" + number + "\",\"amount\":" + amount + "}")
         == "{\"cardnumber\":\"" + MASK + "\",\"amount\":" + amount + "}"
  {
    var tail := ",\"amount\":" + amount + "}";
    var opening := "\"cardnumber\":\"";
    assert opening == "\"" + "cardnumber" + SEPARATOR;
    var body := opening + number + "\"" + tail;
    assert EqualIgnoringCase("cardnumber", SENSITIVE_KEYS[1]);
    RedactField("cardnumber", number, tail);
    AmountTailUnchanged(amount);
    RedactPlainChar('{', body);
    ExampleShape(amount, number);
    ExampleShape(amount, MASK);
  }
}
