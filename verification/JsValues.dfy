/** The JavaScript values and records the front end works with. */
module JsValues {

  datatype Option<+T> = None | Some(value: T) {
    /** The `??` operator: this value when it is defined, otherwise the other one. */
    function Or(other: Option<T>): Option<T> {
      if Some? then this else other
    }

    function GetOr(default: T): T {
      if Some? then value else default
    }
  }

  /** A value of TypeScript type `unknown`: a JSON value, or `undefined`. */
  datatype Value =
    | Undefined
    | Null
    | Bool(b: bool)
    | Num(n: int)
    | Str(s: string)
    | Arr(items: seq<Value>)
    | Obj(fields: map<string, Value>)
  {
    predicate Nullish() { Undefined? || Null? }
  }

  type Fields = map<string, Value>

  function OptStr(s: Option<string>): Value {
    if s.Some? then Str(s.value) else Undefined
  }

  ghost predicate NoDuplicates<T>(s: seq<T>) {
    forall i, j :: 0 <= i < j < |s| ==> s[i] != s[j]
  }

  /** A JavaScript object used as a dictionary: its entries, and the order in which
      `Object.keys`, `Object.values` and `Object.entries` enumerate them. */
  datatype RawRecord<+V> = RawRecord(keys: seq<string>, entries: map<string, V>) {
    ghost predicate Valid() {
      && NoDuplicates(keys)
      && (forall k :: k in keys <==> k in entries)
    }
  }

  type Record<+V> = r: RawRecord<V> | r.Valid() witness RawRecord([], map[])

  function EmptyRecord<V>(): Record<V> {
    RawRecord([], map[])
  }

  function Get<V>(r: Record<V>, key: string): Option<V> {
    if key in r.entries then Some(r.entries[key]) else None
  }

  /** True for the keys that JavaScript enumerates first, in numeric order:
      the canonical decimal form of a number below 2^32 - 1. */
  predicate IsArrayIndex(key: string) {
    && 0 < |key| <= 10
    && (forall i :: 0 <= i < |key| ==> '0' <= key[i] <= '9')
    && (key[0] == '0' ==> |key| == 1)
    && DecimalValue(key) < 0xFFFF_FFFF
  }

  function DecimalValue(digits: string): int {
    if digits == "" then 0
    else DecimalValue(digits[..|digits| - 1]) * 10 + (digits[|digits| - 1] as int - '0' as int)
  }

  /** A number in decimal notation. */
  function DecimalDigits(n: nat): string {
    (if n < 10 then "" else DecimalDigits(n / 10)) + [('0' as int + n % 10) as char]
  }

  /** Where a new key goes in the enumeration order. */
  function InsertionPoint(keys: seq<string>, key: string): (p: nat)
    ensures p <= |keys|
  {
    if !IsArrayIndex(key) then |keys|
    else if keys == [] || !IsArrayIndex(keys[0]) || DecimalValue(key) < DecimalValue(keys[0]) then 0
    else 1 + InsertionPoint(keys[1..], key)
  }

  /** `{ ...r, [key]: v }`: an existing key keeps its place. */
  function Put<V>(r: Record<V>, key: string, v: V): (r': Record<V>)
    ensures r'.entries == r.entries[key := v]
    ensures key in r.entries ==> r'.keys == r.keys
  {
    if key in r.entries then RawRecord(r.keys, r.entries[key := v])
    else
      var p := InsertionPoint(r.keys, key);
      InsertFreshKey(r.keys, p, key);
      RawRecord(r.keys[..p] + [key] + r.keys[p..], r.entries[key := v])
  }

  lemma InsertFreshKey(keys: seq<string>, p: nat, key: string)
    requires NoDuplicates(keys) && key !in keys && p <= |keys|
    ensures NoDuplicates(keys[..p] + [key] + keys[p..])
    ensures forall k :: k in keys[..p] + [key] + keys[p..] <==> k in keys || k == key
  {
    var keys' := keys[..p] + [key] + keys[p..];
    forall k | k in keys ensures k in keys' {
      var i :| 0 <= i < |keys| && keys[i] == k;
      assert keys'[if i < p then i else i + 1] == k;
    }
    assert keys'[p] == key;
  }

  function FilterKeys(keys: seq<string>, keep: set<string>): (r: seq<string>)
    ensures forall k :: k in r <==> k in keys && k in keep
    ensures NoDuplicates(keys) ==> NoDuplicates(r)
  {
    if keys == [] then []
    else
      var rest := FilterKeys(keys[1..], keep);
      assert keys == [keys[0]] + keys[1..];
      if keys[0] in keep then [keys[0]] + rest else rest
  }

  /** The entries whose key is in `keep`, in their order. */
  function Restrict<V>(r: Record<V>, keep: set<string>): (r': Record<V>)
    ensures forall k :: Get(r', k) == if k in keep then Get(r, k) else None
  {
    RawRecord(FilterKeys(r.keys, keep), map k | k in r.entries && k in keep :: r.entries[k])
  }

  /** `delete r[key]`. */
  function Delete<V>(r: Record<V>, key: string): (r': Record<V>)
    ensures forall k :: Get(r', k) == if k == key then None else Get(r, k)
  {
    Restrict(r, r.entries.Keys - {key})
  }

  // ----- the enumeration order -----

  predicate AreDigits(s: string) {
    forall i :: 0 <= i < |s| ==> '0' <= s[i] <= '9'
  }

  lemma {:induction false} DigitsOfNumber(n: nat)
    ensures var s := DecimalDigits(n);
            s != "" && AreDigits(s) && DecimalValue(s) == n && (s[0] == '0' ==> |s| == 1)
  {
    if n >= 10 {
      DigitsOfNumber(n / 10);
      var s := DecimalDigits(n / 10);
      assert DecimalDigits(n)[..|s|] == s;
      assert s[..|s| - 1] == "" || s[0] != '0';
    }
  }

  lemma {:induction false} ValueIsNotNegative(s: string)
    requires AreDigits(s)
    ensures DecimalValue(s) >= 0
    ensures s != "" && s[0] != '0' ==> DecimalValue(s) >= 1
  {
    if s != "" {
      ValueIsNotNegative(s[..|s| - 1]);
    }
  }

  lemma {:induction false} NumberOfDigits(s: string)
    requires s != "" && AreDigits(s) && (s[0] == '0' ==> |s| == 1)
    ensures DecimalValue(s) >= 0 && DecimalDigits(DecimalValue(s)) == s
  {
    var n := |s| - 1;
    ValueIsNotNegative(s[..n]);
    if n == 0 {
      assert s[..0] == "" && s == [s[0]];
    } else {
      NumberOfDigits(s[..n]);
      assert DecimalValue(s) / 10 == DecimalValue(s[..n]);
      assert s == s[..n] + [s[n]];
    }
  }

  function PowerOfTen(n: nat): nat {
    if n == 0 then 1 else 10 * PowerOfTen(n - 1)
  }

  lemma {:induction false} LongNumbersAreLarge(s: string)
    requires s != "" && AreDigits(s) && s[0] != '0'
    ensures DecimalValue(s) >= PowerOfTen(|s| - 1)
  {
    var n := |s| - 1;
    if n > 0 {
      LongNumbersAreLarge(s[..n]);
    } else {
      assert s[..0] == "";
    }
  }

  lemma {:induction false} PowersGrow(m: nat, n: nat)
    requires m <= n
    ensures PowerOfTen(m) <= PowerOfTen(n)
  {
    if m < n {
      PowersGrow(m, n - 1);
    }
  }

  lemma SmallNumbersAreShort(s: string)
    requires s != "" && AreDigits(s) && s[0] != '0' && DecimalValue(s) < 0xFFFF_FFFF
    ensures |s| <= 10
  {
    LongNumbersAreLarge(s);
    assert PowerOfTen(5) == 10_0000;
    assert PowerOfTen(10) == 100_0000_0000;
    if |s| > 10 {
      PowersGrow(10, |s| - 1);
    }
  }

  /** The keys enumerated first are the numbers below 2^32 - 1 in decimal notation. */
  lemma ArrayIndexIff(key: string)
    ensures IsArrayIndex(key) <==> exists n: nat :: n < 4_294_967_295 && key == DecimalDigits(n)
  {
    if IsArrayIndex(key) {
      NumberOfDigits(key);
    }
    forall n: nat | n < 4_294_967_295 && key == DecimalDigits(n) ensures IsArrayIndex(key) {
      DigitsOfNumber(n);
      if key[0] != '0' {
        SmallNumbersAreShort(key);
      }
    }
  }

  /** A new key that is not such a number is enumerated last, and no new key changes the order of
      the others. */
  lemma NewKeyKeepsTheOthers<V>(r: Record<V>, key: string, v: V)
    requires key !in r.entries
    ensures !IsArrayIndex(key) ==> Put(r, key, v).keys == r.keys + [key]
    ensures exists p :: 0 <= p <= |r.keys| && Put(r, key, v).keys == r.keys[..p] + [key] + r.keys[p..]
  {
    hide DecimalValue;
    var p := InsertionPoint(r.keys, key);
    assert Put(r, key, v).keys == r.keys[..p] + [key] + r.keys[p..];
    if !IsArrayIndex(key) {
      assert r.keys[..p] == r.keys && r.keys[p..] == [];
    }
  }

  /** `a` is enumerated before `b`, or could be. */
  predicate Precedes(a: string, b: string) {
    IsArrayIndex(b) ==> IsArrayIndex(a) && DecimalValue(a) <= DecimalValue(b)
  }

  /** The keys are in an order a JavaScript object can have. */
  ghost predicate InOrder(keys: seq<string>) {
    forall i, j :: 0 <= i < j < |keys| ==> Precedes(keys[i], keys[j])
  }

  lemma {:induction false} InsertionPointFits(keys: seq<string>, key: string)
    requires InOrder(keys)
    ensures var p := InsertionPoint(keys, key);
            && (forall i :: 0 <= i < p ==> Precedes(keys[i], key))
            && (forall i :: p <= i < |keys| ==> Precedes(key, keys[i]))
  {
    hide DecimalValue;
    if keys != [] && IsArrayIndex(key) {
      var p := InsertionPoint(keys, key);
      hide IsArrayIndex;
      if p == 0 {
        forall i | 0 <= i < |keys| ensures Precedes(key, keys[i]) {
          assert i > 0 ==> Precedes(keys[0], keys[i]);
        }
      } else {
        assert forall i :: 0 <= i < |keys[1..]| ==> keys[1..][i] == keys[i + 1];
        InsertionPointFits(keys[1..], key);
      }
    }
  }

  lemma {:induction false} LastKeyIsAppended(keys: seq<string>, key: string)
    requires forall i :: 0 <= i < |keys| ==> Precedes(keys[i], key)
    ensures InsertionPoint(keys, key) == |keys|
  {
    hide DecimalValue, IsArrayIndex;
    if keys != [] {
      LastKeyIsAppended(keys[1..], key);
    }
  }

  lemma PutKeepsOrder<V>(r: Record<V>, key: string, v: V)
    requires InOrder(r.keys)
    ensures InOrder(Put(r, key, v).keys)
  {
    hide Precedes;
    if key !in r.entries {
      InsertionPointFits(r.keys, key);
    }
  }

  lemma {:induction false} FilterKeepsOrder(keys: seq<string>, keep: set<string>)
    requires InOrder(keys)
    ensures InOrder(FilterKeys(keys, keep))
  {
    hide Precedes;
    if keys != [] {
      var rest := FilterKeys(keys[1..], keep);
      FilterKeepsOrder(keys[1..], keep);
      forall i | 0 <= i < |rest| ensures Precedes(keys[0], rest[i]) {
        assert rest[i] in keys[1..];
      }
    }
  }

  /** The keys of `r` are those of `original` that are left, in their order. */
  ghost predicate Follows<V>(r: Record<V>, original: Record<V>) {
    r.keys == FilterKeys(original.keys, r.entries.Keys)
  }

  lemma {:induction false} SameFilter(keys: seq<string>, a: set<string>, b: set<string>)
    requires forall k :: k in keys ==> (k in a <==> k in b)
    ensures FilterKeys(keys, a) == FilterKeys(keys, b)
  {
    if keys != [] {
      SameFilter(keys[1..], a, b);
    }
  }

  lemma {:induction false} FilterTwice(keys: seq<string>, a: set<string>, b: set<string>)
    ensures FilterKeys(FilterKeys(keys, a), b) == FilterKeys(keys, a * b)
  {
    if keys != [] {
      FilterTwice(keys[1..], a, b);
      var rest := FilterKeys(keys[1..], a);
      if keys[0] in a {
        assert ([keys[0]] + rest)[1..] == rest;
      }
    }
  }

  lemma RestrictFollows<V>(original: Record<V>, keep: set<string>)
    ensures Follows(Restrict(original, keep), original)
  {
    SameFilter(original.keys, keep, Restrict(original, keep).entries.Keys);
  }

  lemma DeleteFollows<V>(r: Record<V>, original: Record<V>, key: string)
    requires Follows(r, original)
    ensures Follows(Delete(r, key), original)
  {
    var keep := r.entries.Keys - {key};
    FilterTwice(original.keys, r.entries.Keys, keep);
    assert Delete(r, key).entries.Keys == r.entries.Keys * keep;
  }

  lemma {:induction false} KeepAll(keys: seq<string>, keep: set<string>)
    requires forall k :: k in keys ==> k in keep
    ensures FilterKeys(keys, keep) == keys
  {
    if keys != [] {
      KeepAll(keys[1..], keep);
    }
  }

  /** Two such records with the same contents are the same. */
  lemma FollowersAgree<V>(a: Record<V>, b: Record<V>, original: Record<V>)
    requires Follows(a, original) && Follows(b, original)
    requires forall k :: Get(a, k) == Get(b, k)
    ensures a == b
  {
    assert forall k :: k in a.entries <==> Get(a, k).Some?;
    assert forall k :: k in b.entries <==> Get(b, k).Some?;
    assert forall k :: k in a.entries ==> Get(a, k) == Some(a.entries[k]) && Get(b, k) == Some(b.entries[k]);
    assert a.entries == b.entries;
  }

  lemma {:induction false} FilterSnoc(keys: seq<string>, key: string, keep: set<string>)
    ensures FilterKeys(keys + [key], keep) == FilterKeys(keys, keep) + (if key in keep then [key] else [])
  {
    if keys == [] {
      assert [] + [key] == [key] && [key][1..] == [];
    } else {
      assert (keys + [key])[0] == keys[0] && (keys + [key])[1..] == keys[1..] + [key];
      FilterSnoc(keys[1..], key, keep);
    }
  }

  // ----- values -----

  function ValuesOf<V>(keys: seq<string>, entries: map<string, V>): seq<V>
    requires forall k :: k in keys ==> k in entries
  {
    if keys == [] then [] else [entries[keys[0]]] + ValuesOf(keys[1..], entries)
  }

  /** `Object.values(r)`. */
  function Values<V>(r: Record<V>): seq<V> {
    ValuesOf(r.keys, r.entries)
  }
}
