/** Signing and verifying messages of the acquirer. SHA-256 (as a lowercase hex digest) is a
    parameter of every operation; nothing about it is assumed unless a lemma says so. */
module TbankToken {
  import opened Options
  import opened Text

  /** A value of a message. A number is its decimal rendering; an object or array never takes part
      in the token, so only its identity matters. */
  datatype Value = Null | Undefined | Str(text: string) | Num(text: string) | Bool(flag: bool) | Nested(id: int)

  datatype Field = Field(key: string, value: Value)

  /** An object: fields in the order of `Object.entries`. */
  type Params = seq<Field>

  predicate UniqueKeys(params: Params) {
    forall i, j :: 0 <= i < j < |params| ==> params[i].key != params[j].key
  }

  datatype Entry = Entry(key: string, text: string)

  /** JavaScript's `a < b` on strings. */
  predicate Less(a: string, b: string) {
    b != "" && (a == "" || a[0] < b[0] || (a[0] == b[0] && Less(a[1..], b[1..])))
  }

  function Rendered(v: Value): string
    requires v.Str? || v.Num? || v.Bool?
  {
    match v
    case Bool(flag) => if flag then "true" else "false"
    case Str(text) => text
    case Num(text) => text
  }

  predicate Significant(f: Field) {
    f.key != "Token" && (f.value.Str? || f.value.Num? || f.value.Bool?)
  }

  function Entries(params: Params): seq<Entry> {
    if params == [] then []
    else
      var last := params[|params| - 1];
      Entries(params[..|params| - 1]) + if Significant(last) then [Entry(last.key, Rendered(last.value))] else []
  }

  /** A stable sort puts an entry after those with an equal key. */
  function Insert(sorted: seq<Entry>, e: Entry): seq<Entry> {
    if sorted == [] then [e]
    else if Less(e.key, sorted[|sorted| - 1].key)
    then Insert(sorted[..|sorted| - 1], e) + [sorted[|sorted| - 1]]
    else sorted + [e]
  }

  function StableSort(entries: seq<Entry>): seq<Entry> {
    if entries == [] then [] else Insert(StableSort(entries[..|entries| - 1]), entries[|entries| - 1])
  }

  function Joined(entries: seq<Entry>): string {
    if entries == [] then "" else Joined(entries[..|entries| - 1]) + entries[|entries| - 1].text
  }

  function Message(params: Params, password: string): string {
    Joined(StableSort(Entries(params) + [Entry("Password", password)]))
  }

  function Token(params: Params, password: string, sha: string -> string): string {
    sha(Message(params, password))
  }

  method ComputeToken(params: Params, password: string, sha: string -> string) returns (token: string)
    ensures token == Token(params, password, sha)
  {
    var entries: seq<Entry> := [];
    for i := 0 to |params|
      invariant entries == Entries(params[..i])
    {
      assert params[..i + 1][..i] == params[..i];
      var key, value := params[i].key, params[i].value;
      if key == "Token" {
        continue;
      }
      if value.Nested? {
        continue;
      }
      if value.Undefined? || value.Null? {
        continue;
      }
      entries := entries + [Entry(key, Rendered(value))];
    }
    assert params[..|params|] == params;
    entries := entries + [Entry("Password", password)];
    token := sha(Joined(StableSort(entries)));
  }

  // ---------- the order of fields ----------

  lemma {:induction false} LessIsStrict(a: string, b: string)
    ensures !(Less(a, b) && Less(b, a))
    ensures Less(a, b) || Less(b, a) || a == b
    decreases |a|
  {
    if a != "" && b != "" && a[0] == b[0] {
      LessIsStrict(a[1..], b[1..]);
      assert a == [a[0]] + a[1..] && b == [b[0]] + b[1..];
    }
  }

  lemma {:induction false} LessIsTransitive(a: string, b: string, c: string)
    requires Less(a, b) && Less(b, c)
    ensures Less(a, c)
    decreases |b|
  {
    if a != "" && a[0] == b[0] == c[0] {
      LessIsTransitive(a[1..], b[1..], c[1..]);
    }
  }

  /** The order is that of the first character in which the two differ, and a proper prefix comes
      first. */
  lemma {:induction false} LessIsLexicographic(a: string, b: string)
    ensures Less(a, b)
       <==> exists k :: 0 <= k <= |a| && k < |b| && a[..k] == b[..k] && (k == |a| || a[k] < b[k])
    decreases |a|
  {
    if a == "" {
      if b != "" { assert a[..0] == b[..0]; }
    } else if b != "" {
      LessIsLexicographic(a[1..], b[1..]);
      if a[0] < b[0] {
        assert a[..0] == b[..0];
      } else if a[0] == b[0] {
        if k :| 0 <= k <= |a| - 1 && k < |b| - 1 && a[1..][..k] == b[1..][..k]
                && (k == |a| - 1 || a[1..][k] < b[1..][k])
        {
          assert a[..k + 1] == [a[0]] + a[1..][..k] == b[..k + 1];
        }
        if k :| 0 <= k <= |a| && k < |b| && a[..k] == b[..k] && (k == |a| || a[k] < b[k]) {
          assert a[1..][..k - 1] == a[..k][1..] == b[1..][..k - 1];
        }
      } else {
        forall k | 0 <= k <= |a| && k < |b| && a[..k] == b[..k]
          ensures k == 0
        {
          CommonPrefix(a, b, k);
        }
      }
    }
  }

  lemma CommonPrefix(a: string, b: string, k: nat)
    requires k <= |a| && k <= |b| && a[..k] == b[..k]
    ensures k > 0 ==> a[0] == b[0]
  {
    if k > 0 {
      assert a[..k][0] == b[..k][0];
    }
  }

  predicate Ascending(entries: seq<Entry>) {
    forall i, j :: 0 <= i < j < |entries| ==> Less(entries[i].key, entries[j].key)
  }

  predicate DistinctKeys(entries: seq<Entry>) {
    forall i, j :: 0 <= i < j < |entries| ==> entries[i].key != entries[j].key
  }

  lemma {:induction false} InsertHolds(sorted: seq<Entry>, e: Entry, q: Entry)
    ensures q in Insert(sorted, e) <==> q == e || q in sorted
  {
    if sorted != [] && Less(e.key, sorted[|sorted| - 1].key) {
      InsertHolds(sorted[..|sorted| - 1], e, q);
      assert q in sorted <==> q in sorted[..|sorted| - 1] || q == sorted[|sorted| - 1];
    }
  }

  lemma {:induction false} InsertAscends(sorted: seq<Entry>, e: Entry)
    requires Ascending(sorted) && forall i :: 0 <= i < |sorted| ==> sorted[i].key != e.key
    ensures Ascending(Insert(sorted, e))
  {
    if sorted != [] {
      var front, last := sorted[..|sorted| - 1], sorted[|sorted| - 1];
      LessIsStrict(e.key, last.key);
      if Less(e.key, last.key) {
        InsertAscends(front, e);
        forall i | 0 <= i < |Insert(front, e)|
          ensures Less(Insert(front, e)[i].key, last.key)
        {
          InsertHolds(front, e, Insert(front, e)[i]);
        }
      } else {
        forall i | 0 <= i < |front|
          ensures Less(front[i].key, e.key)
        {
          assert Less(sorted[i].key, last.key);
          LessIsTransitive(front[i].key, last.key, e.key);
        }
      }
    }
  }

  lemma {:induction false} SortHolds(entries: seq<Entry>, q: Entry)
    ensures q in StableSort(entries) <==> q in entries
  {
    if entries != [] {
      SortHolds(entries[..|entries| - 1], q);
      InsertHolds(StableSort(entries[..|entries| - 1]), entries[|entries| - 1], q);
      assert q in entries <==> q in entries[..|entries| - 1] || q == entries[|entries| - 1];
    }
  }

  lemma {:induction false} SortAscends(entries: seq<Entry>)
    requires DistinctKeys(entries)
    ensures Ascending(StableSort(entries))
  {
    if entries != [] {
      var front := entries[..|entries| - 1];
      SortAscends(front);
      forall i | 0 <= i < |StableSort(front)|
        ensures StableSort(front)[i].key != entries[|entries| - 1].key
      {
        SortHolds(front, StableSort(front)[i]);
      }
      InsertAscends(StableSort(front), entries[|entries| - 1]);
    }
  }

  predicate SameEntries(a: seq<Entry>, b: seq<Entry>) {
    (forall e :: e in a ==> e in b) && (forall e :: e in b ==> e in a)
  }

  lemma FrontHolds(a: seq<Entry>, e: Entry)
    requires Ascending(a) && a != []
    ensures e in a[..|a| - 1] <==> e in a && e != a[|a| - 1]
  {
    if e in a[..|a| - 1] {
      var i :| 0 <= i < |a| - 1 && a[..|a| - 1][i] == e;
      LessIsStrict(a[i].key, a[|a| - 1].key);
    }
  }

  lemma LastIsCommon(a: seq<Entry>, b: seq<Entry>)
    requires Ascending(a) && Ascending(b) && SameEntries(a, b) && a != []
    ensures b != [] && a[|a| - 1] == b[|b| - 1]
  {
    var x := a[|a| - 1];
    assert x in b;
    var y := b[|b| - 1];
    assert y in a;
    LessIsStrict(x.key, y.key);
  }

  /** Entries with distinct keys have one ascending arrangement. */
  lemma {:induction false} OneArrangement(a: seq<Entry>, b: seq<Entry>)
    requires Ascending(a) && Ascending(b) && SameEntries(a, b)
    ensures a == b
  {
    BothEmpty(a, b);
    if a != [] {
      LastIsCommon(a, b);
      var frontA, frontB := a[..|a| - 1], b[..|b| - 1];
      forall e
        ensures e in frontA <==> e in frontB
      {
        FrontHolds(a, e);
        FrontHolds(b, e);
      }
      OneArrangement(frontA, frontB);
    }
  }

  lemma BothEmpty(a: seq<Entry>, b: seq<Entry>)
    requires SameEntries(a, b)
    ensures a == [] <==> b == []
  {
    if a != [] {
      assert a[0] in b;
    }
    if b != [] {
      assert b[0] in a;
    }
  }

  lemma {:induction false} EntriesHold(params: Params, e: Entry)
    ensures e in Entries(params)
       <==> exists f :: f in params && Significant(f) && e == Entry(f.key, Rendered(f.value))
  {
    if params != [] {
      var front, last := params[..|params| - 1], params[|params| - 1];
      EntriesHold(front, e);
      assert forall f :: f in params <==> f in front || f == last;
    }
  }

  lemma {:induction false} EntriesDistinct(params: Params)
    requires UniqueKeys(params)
    ensures DistinctKeys(Entries(params))
    ensures forall e :: e in Entries(params) ==> exists f :: f in params && f.key == e.key
  {
    if params != [] {
      var front, last := params[..|params| - 1], params[|params| - 1];
      EntriesDistinct(front);
      forall e | e in Entries(front)
        ensures e.key != last.key
      {
        var f :| f in front && f.key == e.key;
      }
      assert forall f :: f in params <==> f in front || f == last;
    }
  }

  /** Two objects with the same significant fields, in any order and among any others. */
  predicate SameSignificant(a: Params, b: Params) {
    (forall f :: f in a && Significant(f) ==> f in b) && (forall f :: f in b && Significant(f) ==> f in a)
  }

  /** The token sees only the significant fields: not their order, nor nested values, nor null or
      undefined ones, nor a Token already there. (A field named Password is no exception: it is
      joined before the terminal's own.) */
  lemma TokenSeesOnlySignificant(a: Params, b: Params, password: string, sha: string -> string)
    requires UniqueKeys(a) && UniqueKeys(b) && SameSignificant(a, b)
    ensures Token(a, password, sha) == Token(b, password, sha)
  {
    EntriesDistinct(a);
    EntriesDistinct(b);
    forall e
      ensures e in StableSort(Entries(a)) <==> e in StableSort(Entries(b))
    {
      SortHolds(Entries(a), e);
      SortHolds(Entries(b), e);
      EntriesHold(a, e);
      EntriesHold(b, e);
    }
    SortAscends(Entries(a));
    SortAscends(Entries(b));
    OneArrangement(StableSort(Entries(a)), StableSort(Entries(b)));
    PasswordLast(a, password);
    PasswordLast(b, password);
  }

  lemma PasswordLast(params: Params, password: string)
    ensures Message(params, password) == Joined(Insert(StableSort(Entries(params)), Entry("Password", password)))
  {
    var all := Entries(params) + [Entry("Password", password)];
    assert all[..|all| - 1] == Entries(params);
  }

  /** What of a field takes part: nothing of one named Token, nested, null or undefined; of any other
      its text, which is "true" or "false" for a boolean. */
  lemma FieldTakesPart(f: Field)
    ensures
      Entries([f])
      == if f.key == "Token" then [] else
         match f.value
         case Str(text) => [Entry(f.key, text)]
         case Num(text) => [Entry(f.key, text)]
         case Bool(flag) => [Entry(f.key, if flag then "true" else "false")]
         case _ => []
  {
    assert [f][..0] == [];
  }

  lemma {:induction false} EntriesInTwoParts(first: Params, second: Params)
    ensures Entries(first + second) == Entries(first) + Entries(second)
    decreases |second|
  {
    var all := first + second;
    if second == [] {
      assert all == first;
    } else {
      assert all[..|all| - 1] == first + second[..|second| - 1];
      EntriesInTwoParts(first, second[..|second| - 1]);
    }
  }

  /** For any object without a field named Password, the message that is hashed joins the values
      of its significant fields and the password in ascending order of their keys: of whatever
      arrangement of them is ascending, since there is but one. */
  lemma MessageJoinsInKeyOrder(params: Params, password: string, arrangement: seq<Entry>)
    requires UniqueKeys(params) && forall f :: f in params ==> f.key != "Password"
    requires Ascending(arrangement)
    requires SameEntries(arrangement, Entries(params) + [Entry("Password", password)])
    ensures Message(params, password) == Joined(arrangement)
  {
    var all := Entries(params) + [Entry("Password", password)];
    EntriesDistinct(params);
    forall i | 0 <= i < |Entries(params)|
      ensures Entries(params)[i].key != "Password"
    {
      assert Entries(params)[i] in Entries(params);
    }
    SortAscends(all);
    forall e
      ensures e in StableSort(all) <==> e in all
    {
      SortHolds(all, e);
    }
    OneArrangement(StableSort(all), arrangement);
  }

  // ---------- the sent set is the signed set ----------

  predicate Empty(v: Value) { v.Null? || v.Undefined? || v == Str("") }

  function Pruned(params: Params): Params {
    if params == [] then []
    else
      var last := params[|params| - 1];
      Pruned(params[..|params| - 1]) + if Empty(last.value) then [] else [last]
  }

  method PruneEmpty(params: Params) returns (out: Params)
    ensures out == Pruned(params)
  {
    out := [];
    for i := 0 to |params|
      invariant out == Pruned(params[..i])
    {
      assert params[..i + 1][..i] == params[..i];
      var value := params[i].value;
      if value.Null? || value.Undefined? {
        continue;
      }
      if value.Str? && |value.text| == 0 {
        continue;
      }
      out := out + [params[i]];
    }
    assert params[..|params|] == params;
  }

  lemma {:induction false} PrunedHolds(params: Params, f: Field)
    ensures f in Pruned(params)
       <==> f in params && f.value != Null && f.value != Undefined && f.value != Str("")
  {
    if params != [] {
      PrunedHolds(params[..|params| - 1], f);
      assert f in params <==> f in params[..|params| - 1] || f == params[|params| - 1];
    }
  }

  lemma {:induction false} PrunedUnique(params: Params)
    requires UniqueKeys(params)
    ensures UniqueKeys(Pruned(params))
  {
    if params != [] {
      var front := params[..|params| - 1];
      PrunedUnique(front);
      forall i | 0 <= i < |Pruned(front)|
        ensures Pruned(front)[i].key != params[|params| - 1].key
      {
        PrunedHolds(front, Pruned(front)[i]);
      }
    }
  }

  /** `{ ...object, [key]: value }` */
  function With(params: Params, key: string, value: Value): Params {
    if params == [] then [Field(key, value)]
    else if params[0].key == key then [Field(key, value)] + params[1..]
    else [params[0]] + With(params[1..], key, value)
  }

  lemma {:induction false} WithHolds(params: Params, key: string, value: Value, f: Field)
    requires UniqueKeys(params)
    ensures f in With(params, key, value) <==> f == Field(key, value) || (f in params && f.key != key)
  {
    if params != [] {
      assert f in params <==> f == params[0] || f in params[1..];
      if params[0].key == key {
        if f in params[1..] {
          var i :| 0 <= i < |params| - 1 && params[1..][i] == f;
          assert params[i + 1].key != params[0].key;
        }
      } else {
        WithHolds(params[1..], key, value, f);
      }
    }
  }

  lemma {:induction false} WithUnique(params: Params, key: string, value: Value)
    requires UniqueKeys(params)
    ensures UniqueKeys(With(params, key, value))
  {
    if params != [] && params[0].key != key {
      var rest := With(params[1..], key, value);
      WithUnique(params[1..], key, value);
      forall j | 0 <= j < |rest|
        ensures rest[j].key != params[0].key
      {
        WithHolds(params[1..], key, value, rest[j]);
        if rest[j] in params[1..] {
          var i :| 0 <= i < |params| - 1 && params[1..][i] == rest[j];
        }
      }
    }
  }

  /** The body that goes on the wire. */
  function Payload(terminalKey: string, params: Params, password: string, sha: string -> string): Params {
    var final := Pruned(Merged([Field("TerminalKey", Str(terminalKey))], params));
    With(final, "Token", Str(Token(final, password, sha)))
  }

  /** `{ ...base, ...params }` */
  function Merged(base: Params, params: Params): Params {
    if params == [] then base
    else
      var last := params[|params| - 1];
      With(Merged(base, params[..|params| - 1]), last.key, last.value)
  }

  lemma {:induction false} MergedUnique(base: Params, params: Params)
    requires UniqueKeys(base)
    ensures UniqueKeys(Merged(base, params))
  {
    if params != [] {
      MergedUnique(base, params[..|params| - 1]);
      WithUnique(Merged(base, params[..|params| - 1]), params[|params| - 1].key, params[|params| - 1].value);
    }
  }

  /** The value of the field named `key`, which is undefined if there is none. */
  function Get(params: Params, key: string): Value {
    if params == [] then Undefined
    else if params[0].key == key then params[0].value
    else Get(params[1..], key)
  }

  function Verified(body: Params, password: string, sha: string -> string): bool {
    var provided := Get(body, "Token");
    provided.Str? && provided.text != "" && Lower(provided.text) == Lower(Token(body, password, sha))
  }

  /** A string's length in JavaScript, in UTF-16 code units. */
  function JsLength(s: string): nat {
    if s == "" then 0 else JsLength(s[..|s| - 1]) + if s[|s| - 1] as int < 0x1_0000 then 1 else 2
  }

  /** The length of `Buffer.from(s, "utf8")`. */
  function Utf8Length(s: string): nat {
    if s == "" then 0
    else
      var last := s[|s| - 1] as int;
      Utf8Length(s[..|s| - 1])
      + if last < 0x80 then 1 else if last < 0x800 then 2 else if last < 0x1_0000 then 3 else 4
  }

  /** UTF-16 has two units from U+10000 on; UTF-8 two bytes from U+0080, three from U+0800 and four
      from U+10000 on (section 3 of RFC 3629). */
  lemma LengthsByCodePoint()
    ensures JsLength("\U{007F}") == 1 && Utf8Length("\U{007F}") == 1
    ensures JsLength("\U{0080}") == 1 && Utf8Length("\U{0080}") == 2
    ensures JsLength("\U{07FF}") == 1 && Utf8Length("\U{07FF}") == 2
    ensures JsLength("\U{0800}") == 1 && Utf8Length("\U{0800}") == 3
    ensures JsLength("\U{FFFF}") == 1 && Utf8Length("\U{FFFF}") == 3
    ensures JsLength("\U{10000}") == 2 && Utf8Length("\U{10000}") == 4
  {
  }

  /** As long as the expected token for the check by `length`, but not as buffers. */
  predicate Garbled(body: Params, password: string, sha: string -> string) {
    var provided, expected := Get(body, "Token"), Lower(Token(body, password, sha));
    && provided.Str? && provided.text != ""
    && JsLength(Lower(provided.text)) == JsLength(expected)
    && Utf8Length(Lower(provided.text)) != Utf8Length(expected)
  }

  datatype Verification = Accepted | Rejected | Throws

  /** `timingSafeEqual` throws on buffers of different lengths. */
  method VerifyNotificationToken(body: Params, password: string, sha: string -> string) returns (v: Verification)
    ensures v == Accepted <==> Verified(body, password, sha)
    ensures v == Throws <==> Garbled(body, password, sha)
  {
    var provided := Get(body, "Token");
    if !provided.Str? || |provided.text| == 0 {
      return Rejected;
    }
    var expected := ComputeToken(body, password, sha);
    var providedLower, expectedLower := Lower(provided.text), Lower(expected);
    if JsLength(providedLower) != JsLength(expectedLower) {
      return Rejected;
    }
    if Utf8Length(providedLower) != Utf8Length(expectedLower) {
      return Throws;
    }
    return if providedLower == expectedLower then Accepted else Rejected;
  }

  predicate Ascii(s: string) { forall i :: 0 <= i < |s| ==> s[i] as int < 0x80 }

  lemma {:induction false} Utf8IsLonger(s: string)
    ensures JsLength(s) <= Utf8Length(s)
    ensures JsLength(s) == Utf8Length(s) <==> Ascii(s)
    ensures Ascii(s) ==> JsLength(s) == |s|
  {
    if s != "" {
      var front := s[..|s| - 1];
      Utf8IsLonger(front);
      assert Ascii(s) <==> Ascii(front) && s[|s| - 1] as int < 0x80;
    }
  }

  lemma LowerKeepsAscii(s: string)
    ensures Ascii(Lower(s)) <==> Ascii(s)
  {
    forall i | 0 <= i < |s| ensures Lower(s)[i] as int < 0x80 <==> s[i] as int < 0x80 {}
  }

  lemma {:induction false} LowerKeepsLength(s: string)
    ensures JsLength(Lower(s)) == JsLength(s)
  {
    if s != "" {
      LowerKeepsLength(s[..|s| - 1]);
      assert Lower(s)[..|s| - 1] == Lower(s[..|s| - 1]);
    }
  }

  /** A wrong token is not always rejected without an exception: with digests of ASCII letters and
      digits, the comparison throws exactly on a token as long as the digest in which some
      character is not ASCII. */
  lemma VerificationThrowsIff(body: Params, password: string, sha: string -> string)
    requires Ascii(Token(body, password, sha))
    ensures
      var provided := Get(body, "Token");
      Garbled(body, password, sha)
      <==> provided.Str? && JsLength(provided.text) == |Token(body, password, sha)| && !Ascii(provided.text)
  {
    var provided, expected := Get(body, "Token"), Token(body, password, sha);
    LowerKeepsAscii(expected);
    Utf8IsLonger(Lower(expected));
    if provided.Str? {
      LowerKeepsAscii(provided.text);
      LowerKeepsLength(provided.text);
      Utf8IsLonger(Lower(provided.text));
    }
  }

  lemma {:induction false} GetOtherWith(params: Params, key: string, value: Value, other: string)
    requires other != key
    ensures Get(With(params, key, value), other) == Get(params, other)
  {
    if params != [] && params[0].key != key {
      GetOtherWith(params[1..], key, value, other);
    }
  }

  /** The last field of a given name in a list, as an object spread keeps it. */
  function LastOf(params: Params, key: string): Option<Value> {
    if params == [] then None
    else if params[|params| - 1].key == key then Some(params[|params| - 1].value)
    else LastOf(params[..|params| - 1], key)
  }

  lemma {:induction false} GetMerged(base: Params, params: Params, key: string)
    ensures Get(Merged(base, params), key)
         == if LastOf(params, key).Some? then LastOf(params, key).value else Get(base, key)
  {
    if params != [] {
      var front, last := params[..|params| - 1], params[|params| - 1];
      GetMerged(base, front, key);
      if last.key == key {
        GetAfterWith(Merged(base, front), key, last.value);
      } else {
        GetOtherWith(Merged(base, front), last.key, last.value, key);
      }
    }
  }

  lemma {:induction false} GetPruned(params: Params, key: string)
    requires UniqueKeys(params)
    ensures Get(Pruned(params), key) == if Empty(Get(params, key)) then Undefined else Get(params, key)
  {
    if params != [] {
      var front, last := params[..|params| - 1], params[|params| - 1];
      GetPruned(front, key);
      GetLast(front, last, key);
      GetLast(Pruned(front), last, key);
      assert front + [last] == params;
      assert Pruned(front) + [] == Pruned(front);
      if key == last.key {
        GetNone(front, key);
        forall f | f in Pruned(front)
          ensures f.key != key
        {
          PrunedHolds(front, f);
        }
        GetNone(Pruned(front), key);
      }
    }
  }

  lemma {:induction false} GetLast(front: Params, last: Field, key: string)
    ensures Get(front + [last], key)
         == if Get(front, key) != Undefined || (exists f :: f in front && f.key == key) then Get(front, key)
            else if last.key == key then last.value else Undefined
  {
    if front == [] {
      assert (front + [last])[1..] == [];
    } else {
      assert (front + [last])[1..] == front[1..] + [last] && (front + [last])[0] == front[0];
      assert forall f :: f in front <==> f == front[0] || f in front[1..];
      if front[0].key != key { GetLast(front[1..], last, key); }
    }
  }

  lemma {:induction false} GetNone(params: Params, key: string)
    requires forall f :: f in params ==> f.key != key
    ensures Get(params, key) == Undefined
  {
    if params != [] {
      assert params[0] in params;
      GetNone(params[1..], key);
    }
  }

  /** What the body on the wire holds under each name: the token of the rest under Token; under any
      other name the parameter given last, or for TerminalKey the terminal's own if none was given,
      unless it is empty. */
  lemma PayloadHolds(terminalKey: string, params: Params, password: string, sha: string -> string, key: string)
    ensures
      var body := Payload(terminalKey, params, password, sha);
      var given := LastOf(params, key);
      var value := if given.Some? then given.value else if key == "TerminalKey" then Str(terminalKey) else Undefined;
      && (key == "Token" ==> Get(body, key) == Str(Token(body, password, sha)))
      && (key != "Token" ==> Get(body, key) == if value == Null || value == Str("") then Undefined else value)
  {
    var merged := Merged([Field("TerminalKey", Str(terminalKey))], params);
    var final := Pruned(merged);
    MergedUnique([Field("TerminalKey", Str(terminalKey))], params);
    GetMerged([Field("TerminalKey", Str(terminalKey))], params, key);
    assert [Field("TerminalKey", Str(terminalKey))][1..] == [];
    GetPruned(merged, key);
    var token := Str(Token(final, password, sha));
    if key == "Token" {
      GetAfterWith(final, key, token);
      PayloadToken(final, merged, token, password, sha);
    } else {
      GetOtherWith(final, "Token", token, key);
    }
  }

  /** A token put into an object does not change what its token is. */
  lemma PayloadToken(final: Params, merged: Params, token: Value, password: string, sha: string -> string)
    requires UniqueKeys(merged) && final == Pruned(merged)
    ensures Token(With(final, "Token", token), password, sha) == Token(final, password, sha)
  {
    PrunedUnique(merged);
    WithUnique(final, "Token", token);
    forall f | Significant(f)
      ensures f in With(final, "Token", token) <==> f in final
    {
      WithHolds(final, "Token", token, f);
    }
    TokenSeesOnlySignificant(With(final, "Token", token), final, password, sha);
  }

  lemma {:induction false} GetAfterWith(params: Params, key: string, value: Value)
    ensures Get(With(params, key, value), key) == value
  {
    if params != [] && params[0].key != key {
      GetAfterWith(params[1..], key, value);
    }
  }

  /** Every request this client signs verifies under the same password (a digest is never empty),
      whatever parameters it was given. */
  lemma SignedPayloadVerifies(terminalKey: string, params: Params, password: string, sha: string -> string)
    requires forall message :: sha(message) != ""
    ensures Verified(Payload(terminalKey, params, password, sha), password, sha)
  {
    var merged := Merged([Field("TerminalKey", Str(terminalKey))], params);
    var final := Pruned(merged);
    var token := Str(Token(final, password, sha));
    MergedUnique([Field("TerminalKey", Str(terminalKey))], params);
    PayloadToken(final, merged, token, password, sha);
    GetAfterWith(final, "Token", token);
  }
}
