/**
  Identity of a cart line (`generateCartId` in frontend/src/store/useCartStore.ts).

  Without an options argument the id is the product id in decimal; with one it
  is the decimal id, a dash, and `JSON.stringify` of the options object. An
  options object is truthy even when it is empty, so `{}` gives `"1-{}"`, not
  `"1"`. Keys are serialised in insertion order, so an options object with the
  same members inserted in another order gives another id; the product page
  always inserts flavor, filling and size in that order, and passes no options
  argument for a product that is not a custom cake.

  The parser `ParseCartId` inverts `GenerateCartId`; from the round trip it
  follows that two lines share an id only when they share product and options.
*/
module CartId {
  import opened Wrappers
  import Json

  /** The option types of a cake (CakeOption.OPTION_TYPES), as the keys of an options object. */
  datatype OptionKey = Flavor | Filling | Size

  function KeyName(k: OptionKey): string
  {
    match k
    case Flavor => "flavor"
    case Filling => "filling"
    case Size => "size"
  }

  function KeyOf(name: string): (k: Option<OptionKey>)
    ensures k.Some? ==> KeyName(k.value) == name
    ensures forall key: OptionKey :: KeyName(key) == name ==> k == Some(key)
  {
    if name == "flavor" then Some(Flavor)
    else if name == "filling" then Some(Filling)
    else if name == "size" then Some(Size)
    else None
  }

  /** A JavaScript object has each key at most once. */
  predicate DistinctKeys(o: seq<(OptionKey, string)>)
  {
    forall i, j :: 0 <= i < j < |o| ==> o[i].0 != o[j].0
  }

  /** The selected options of a line, in the order their keys were inserted. */
  type Options = o: seq<(OptionKey, string)> | DistinctKeys(o)

  // ---------------------------------------------------------------------------
  // Decimal text of a product id (Number.prototype.toString for a non-negative integer)

  predicate IsDigit(c: char)
  {
    '0' <= c <= '9'
  }

  predicate IsDigits(s: string)
  {
    forall i :: 0 <= i < |s| ==> IsDigit(s[i])
  }

  /** Digits of a number written the usual way: at least one, and no leading zero. */
  predicate IsCanonicalDecimal(s: string)
  {
    s != [] && IsDigits(s) && (s[0] == '0' ==> |s| == 1)
  }

  function DigitChar(d: nat): (c: char)
    requires d < 10
    ensures IsDigit(c)
  {
    ('0' as int + d) as char
  }

  /** The value a string of decimal digits denotes. */
  function DigitsValue(s: string): nat
    requires IsDigits(s)
  {
    if s == [] then 0 else DigitsValue(s[..|s| - 1]) * 10 + (s[|s| - 1] as int - '0' as int)
  }

  function Decimal(n: nat): (s: string)
    ensures s != [] && IsDigits(s)
    ensures n < 10 <==> |s| == 1
    decreases n
  {
    if n < 10 then [DigitChar(n)] else Decimal(n / 10) + [DigitChar(n % 10)]
  }

  /** `Decimal` writes `n` the canonical way and reads back as `n`. */
  lemma {:induction false} DecimalRoundTrip(n: nat)
    ensures IsCanonicalDecimal(Decimal(n))
    ensures DigitsValue(Decimal(n)) == n
  {
    var s := Decimal(n);
    if n >= 10 {
      DecimalRoundTrip(n / 10);
      assert s[..|s| - 1] == Decimal(n / 10);
      assert s[0] == Decimal(n / 10)[0];
    }
  }

  // ---------------------------------------------------------------------------
  // The options object as JSON

  function OptionPairs(o: seq<(OptionKey, string)>): (ms: seq<Json.Member>)
    ensures |ms| == |o|
  {
    if o == [] then [] else [(KeyName(o[0].0), o[0].1)] + OptionPairs(o[1..])
  }

  /** Reads option keys back from member names; an unknown name fails. */
  function KeysOf(ms: seq<Json.Member>): (o: Option<seq<(OptionKey, string)>>)
  {
    if ms == [] then Some([])
    else
      match (KeyOf(ms[0].0), KeysOf(ms[1..]))
      case (Some(k), Some(rest)) => Some([(k, ms[0].1)] + rest)
      case _ => None
  }

  lemma {:induction false} KeysOfPairs(o: seq<(OptionKey, string)>)
    ensures KeysOf(OptionPairs(o)) == Some(o)
  {
    if o != [] {
      var ms := OptionPairs(o);
      assert ms[1..] == OptionPairs(o[1..]);
      KeysOfPairs(o[1..]);
      assert [o[0]] + o[1..] == o;
    }
  }

  function OptionsJson(o: Options): string
  {
    Json.Stringify(OptionPairs(o))
  }

  // ---------------------------------------------------------------------------
  // generateCartId and its inverse

  /**
    `generateCartId(productId, options)`; `None` stands for a missing options
    argument. The id starts with the decimal product id; with options it goes on
    with a dash and a JSON object.
  */
  function GenerateCartId(productId: nat, options: Option<Options>): (id: string)
    ensures |Decimal(productId)| <= |id| && id[..|Decimal(productId)|] == Decimal(productId)
    ensures options.None? <==> |id| == |Decimal(productId)|
    ensures options.Some? ==>
      && |id| >= |Decimal(productId)| + 3
      && id[|Decimal(productId)|] == '-' && id[|Decimal(productId)| + 1] == '{' && id[|id| - 1] == '}'
  {
    match options
    case None => Decimal(productId)
    case Some(o) => Decimal(productId) + "-" + OptionsJson(o)
  }

  /** The index of the first dash in `s`, if any. */
  function FirstDash(s: string): (i: Option<nat>)
    ensures i.Some? ==> i.value < |s| && s[i.value] == '-'
    ensures i.Some? ==> forall j :: 0 <= j < i.value ==> s[j] != '-'
    ensures i.None? ==> forall j :: 0 <= j < |s| ==> s[j] != '-'
  {
    if s == [] then None
    else if s[0] == '-' then Some(0)
    else
      match FirstDash(s[1..])
      case None => None
      case Some(i) => Some(i + 1)
  }

  /** Splits a cart id into product id and options, or fails if it is not one. */
  function ParseCartId(s: string): Option<(nat, Option<seq<(OptionKey, string)>>)>
  {
    match FirstDash(s)
    case None =>
      if s != [] && IsDigits(s) then Some((DigitsValue(s), None)) else None
    case Some(i) =>
      var digits := s[..i];
      if digits == [] || !IsDigits(digits) then None
      else
        match Json.ParseObject(s[i + 1..])
        case Some((ms, rest)) =>
          if rest != [] then None
          else (
            match KeysOf(ms)
            case Some(o) => Some((DigitsValue(digits), Some(o)))
            case None => None)
        case None => None
  }

  /** A cart id reads back as the product id and options it was made from. */
  lemma CartIdRoundTrip(productId: nat, options: Option<Options>)
    ensures ParseCartId(GenerateCartId(productId, options)) == Some((productId, options))
  {
    var d := Decimal(productId);
    DecimalRoundTrip(productId);
    match options
    case None =>
    case Some(o) =>
      var json := OptionsJson(o);
      var s := d + "-" + json;
      assert s[|d|] == '-';
      assert forall j :: 0 <= j < |d| ==> s[j] == d[j];
      assert FirstDash(s) == Some(|d|);
      assert s[..|d|] == d;
      assert s[|d| + 1..] == json + [];
      Json.StringifyRoundTrip(OptionPairs(o), []);
      KeysOfPairs(o);
  }

  /**
    Two lines get the same id only for the same product and the same options
    argument: a missing argument, `{}`, and an object with the same members
    inserted in another order all give different ids.
  */
  lemma CartIdInjective(p1: nat, o1: Option<Options>, p2: nat, o2: Option<Options>)
    requires GenerateCartId(p1, o1) == GenerateCartId(p2, o2)
    ensures p1 == p2 && o1 == o2
  {
    CartIdRoundTrip(p1, o1);
    CartIdRoundTrip(p2, o2);
  }

  /** Without options the id is the canonical decimal text of the product id. */
  lemma BareCartId(productId: nat)
    ensures IsCanonicalDecimal(GenerateCartId(productId, None))
    ensures DigitsValue(GenerateCartId(productId, None)) == productId
  {
    DecimalRoundTrip(productId);
  }

  /**
    A missing options argument gives the bare id (cartStore.test.ts expects "1"),
    while an empty options object is still an object and gives "1-{}".
  */
  lemma EmptyOptionsAreNotMissing()
    ensures GenerateCartId(1, None) == "1"
    ensures GenerateCartId(1, Some([])) == "1-{}"
  {
  }
}
