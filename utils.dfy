/**
 * Layer-id generation and URL expansion (mapmakers/utils.py).
 * The random part of an id is an input: a `Draw` is what `random.choices`
 * and `random.randint(10000, 99999)` return for one layer.
 */
module Utils {
  import opened Wrappers

  predicate IsIdChar(c: char) {
    'a' <= c <= 'z' || '0' <= c <= '9'
  }

  predicate IsDigit(c: char) {
    '0' <= c <= '9'
  }

  /** Eleven characters of `string.ascii_lowercase + string.digits`. */
  type Prefix = s: string | |s| == 11 && forall i :: 0 <= i < |s| ==> IsIdChar(s[i])
    witness "aaaaaaaaaaa"

  /** The random choices behind one generated layer or group id. */
  datatype Draw = Draw(prefix: Prefix, index: int)

  /** The index range the source always draws from. */
  predicate InDrawRange(n: int) {
    10000 <= n <= 99999
  }

  type LayerDraw = d: Draw | InDrawRange(d.index) witness Draw("aaaaaaaaaaa", 10000)

  function DigitChar(d: nat): char
    requires d < 10
  {
    "0123456789"[d]
  }

  /** `str(n)` for a natural number. */
  function NatToString(n: nat): (s: string)
    ensures |s| >= 1
    ensures forall i :: 0 <= i < |s| ==> IsDigit(s[i])
  {
    if n < 10 then [DigitChar(n)] else NatToString(n / 10) + [DigitChar(n % 10)]
  }

  /** `str(i)` for any integer. */
  function IntToString(i: int): string {
    if i < 0 then "-" + NatToString(-i) else NatToString(i)
  }

  function DigitValue(c: char): (v: nat)
    requires IsDigit(c)
    ensures v < 10
  {
    c as int - '0' as int
  }

  /** The value of a string of decimal digits. */
  function ParseNat(s: string): nat
    requires forall i :: 0 <= i < |s| ==> IsDigit(s[i])
  {
    if s == [] then 0 else 10 * ParseNat(s[..|s| - 1]) + DigitValue(s[|s| - 1])
  }

  lemma {:induction false} ParseNatToString(n: nat)
    ensures ParseNat(NatToString(n)) == n
  {
    var s := NatToString(n);
    if n >= 10 {
      ParseNatToString(n / 10);
      assert s[..|s| - 1] == NatToString(n / 10);
    }
  }

  function Pow10(k: nat): nat {
    if k == 0 then 1 else 10 * Pow10(k - 1)
  }

  /** A number with k digits prints as exactly k characters. */
  lemma {:induction false} NatToStringLength(n: nat, k: nat)
    requires k >= 1 && (k == 1 || Pow10(k - 1) <= n) && n < Pow10(k)
    ensures |NatToString(n)| == k
  {
    if k > 1 {
      NatToStringLength(n / 10, k - 1);
    }
  }

  /** `create_layer_id(n)`: the drawn prefix, `-layer-`, then `str(n)`. */
  function CreateLayerId(prefix: Prefix, n: int): (id: string)
    ensures |id| == 18 + |IntToString(n)|
    ensures id[..11] == prefix && id[11..18] == "-layer-" && id[18..] == IntToString(n)
  {
    prefix + "-layer-" + IntToString(n)
  }

  /** The id of the layer a draw is for. */
  function IdOf(d: Draw): string {
    CreateLayerId(d.prefix, d.index)
  }

  /** Recovers the prefix and the index from an id in the format `create_layer_id` produces. */
  function ParseLayerId(id: string): Option<(Prefix, nat)> {
    if |id| > 18 && id[11..18] == "-layer-"
       && (forall i :: 0 <= i < 11 ==> IsIdChar(id[i]))
       && (forall i :: 18 <= i < |id| ==> IsDigit(id[i]))
    then
      var p: Prefix := id[..11];
      Some((p, ParseNat(id[18..])))
    else None
  }

  /** Every id `create_layer_id` builds can be taken apart again into what it was built from. */
  lemma LayerIdRoundTrip(prefix: Prefix, n: nat)
    ensures ParseLayerId(CreateLayerId(prefix, n)) == Some((prefix, n))
  {
    var id := CreateLayerId(prefix, n);
    assert forall i :: 18 <= i < |id| ==> id[i] == NatToString(n)[i - 18];
    ParseNatToString(n);
  }

  /** With an index drawn from 10000..99999 an id has 23 characters: 11 id characters,
      `-layer-`, and 5 digits that spell the index. */
  lemma LayerIdFormat(d: LayerDraw)
    ensures |IdOf(d)| == 23
    ensures forall i :: 0 <= i < 11 ==> IsIdChar(IdOf(d)[i])
    ensures IdOf(d)[11..18] == "-layer-"
    ensures forall i :: 18 <= i < 23 ==> IsDigit(IdOf(d)[i])
    ensures ParseLayerId(IdOf(d)) == Some((d.prefix, d.index))
  {
    assert Pow10(4) == 10000 by {
      assert Pow10(2) == 100;
    }
    assert Pow10(5) == 100000;
    NatToStringLength(d.index, 5);
    LayerIdRoundTrip(d.prefix, d.index);
  }

  /** The second argument of `expand_urls`: a `range`, a `list`, or anything else. */
  datatype Indices =
    | RangeArg(start: int, stop: int, step: int)
    | ListArg(values: seq<int>)
    | OtherArg

  /** `range(start, stop, 0)` raises before `expand_urls` is reached. */
  type IndexArg = a: Indices | !a.RangeArg? || a.step != 0 witness OtherArg

  /** `list(range(start, stop, step))`. */
  function RangeValues(start: int, stop: int, step: int): (r: seq<int>)
    requires step != 0
    ensures forall k :: 0 <= k < |r| ==> r[k] == start + k * step
    ensures forall k :: 0 <= k < |r| ==> if step > 0 then r[k] < stop else r[k] > stop
    decreases if step > 0 then stop - start else start - stop
  {
    if (step > 0 && start >= stop) || (step < 0 && start <= stop) then []
    else [start] + RangeValues(start + step, stop, step)
  }

  /** The indices `expand_urls` iterates over. */
  function IndexValues(rng: IndexArg): seq<int> {
    match rng
    case RangeArg(start, stop, step) => RangeValues(start, stop, step)
    case ListArg(values) => values
    case OtherArg => []
  }

  predicate EndsWithSlash(s: string) {
    |s| > 0 && s[|s| - 1] == '/'
  }

  /** The stub with a `/` appended unless it already ends in one. */
  function WithSlash(stub: string): (r: string)
    ensures EndsWithSlash(r)
    ensures EndsWithSlash(stub) ==> r == stub
    ensures !EndsWithSlash(stub) ==> r == stub + "/"
  {
    if EndsWithSlash(stub) then stub else stub + "/"
  }

  /** `expand_urls(stub, rng)`: one URL per index, in the order given. */
  method ExpandUrls(stub: string, rng: IndexArg) returns (urls: seq<string>)
    ensures |urls| == |IndexValues(rng)|
    ensures forall k :: 0 <= k < |urls| ==> urls[k] == WithSlash(stub) + IntToString(IndexValues(rng)[k])
  {
    var values: seq<int> := [];
    match rng {
      case RangeArg(start, stop, step) => values := RangeValues(start, stop, step);
      case ListArg(vs) => values := vs;
      case OtherArg =>
    }
    assert values == IndexValues(rng);
    urls := [];
    var base := stub;
    if !EndsWithSlash(base) {
      base := base + "/";
    }
    assert base == WithSlash(stub);
    for i := 0 to |values|
      invariant |urls| == i
      invariant forall k :: 0 <= k < i ==> urls[k] == base + IntToString(values[k])
    {
      urls := urls + [base + IntToString(values[i])];
    }
  }

  /** `expand_urls("https://host/svc", [2, 0, 1])`: the slash is inserted once and the order follows the input. */
  method ExpandUrlsExample() {
    var urls := ExpandUrls("https://host/svc", ListArg([2, 0, 1]));
    assert IntToString(2) == "2" && IntToString(0) == "0" && IntToString(1) == "1";
    assert WithSlash("https://host/svc") == "https://host/svc/";
    assert urls[0] == "https://host/svc/2" && urls[1] == "https://host/svc/0" && urls[2] == "https://host/svc/1";
    assert urls == ["https://host/svc/2", "https://host/svc/0", "https://host/svc/1"];
  }
}
