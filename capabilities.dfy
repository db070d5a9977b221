/**
 * The client's hello capabilities and the typed getters `parse_hello` reads them with.
 * A getter never fails: an absent key, or a value it cannot convert, gives the default.
 */
module Capabilities {
  import opened Common

  datatype CapValue = BoolCap(b: bool) | IntCap(i: int) | StrCap(s: string) | ListCap(items: seq<CapValue>)

  type Caps = map<string, CapValue>

  /** Python's `bool(v)`. */
  function Truthy(v: CapValue): bool
  {
    match v
    case BoolCap(b) => b
    case IntCap(i) => i != 0
    case StrCap(s) => s != ""
    case ListCap(items) => items != []
  }

  /** Python's `int(v)` on the values it accepts without parsing text: integers and booleans. */
  function AsInt(v: CapValue): Option<int>
  {
    match v
    case IntCap(i) => Some(i)
    case BoolCap(b) => Some(if b then 1 else 0)
    case _ => None
  }

  /** `c.boolget(key, default)`. */
  function BoolGet(c: Caps, key: string, default: bool): (r: bool)
    ensures key !in c ==> r == default
    ensures key in c && c[key].BoolCap? ==> r == c[key].b
    ensures key in c && c[key] == IntCap(0) ==> !r
  {
    if key in c then Truthy(c[key]) else default
  }

  /** `c.intget(key, default)`. */
  function IntGet(c: Caps, key: string, default: int): (r: int)
    ensures key in c && c[key].IntCap? ==> r == c[key].i
    ensures key !in c || c[key].StrCap? || c[key].ListCap? ==> r == default
  {
    if key in c && AsInt(c[key]).Some? then AsInt(c[key]).value else default
  }

  /** `c.intpair(key)`: a list of exactly two integers, or None. */
  function IntPair(c: Caps, key: string): (r: Option<(int, int)>)
    ensures r.Some? ==> key in c && c[key].ListCap? && |c[key].items| == 2
    ensures r.Some? ==> AsInt(c[key].items[0]) == Some(r.value.0) && AsInt(c[key].items[1]) == Some(r.value.1)
    ensures key in c && c[key].ListCap? && |c[key].items| == 2 && AsInt(c[key].items[0]).Some? && AsInt(c[key].items[1]).Some? ==> r.Some?
  {
    if key in c && c[key].ListCap? && |c[key].items| == 2 then
      var a, b := AsInt(c[key].items[0]), AsInt(c[key].items[1]);
      if a.Some? && b.Some? then Some((a.value, b.value)) else None
    else None
  }

  predicate AllStrings(items: seq<CapValue>) { forall k :: 0 <= k < |items| ==> items[k].StrCap? }

  /** `c.strlistget(key)`: a list of strings, or the empty list. */
  function StrListGet(c: Caps, key: string): (r: seq<string>)
    ensures key in c && c[key].ListCap? && AllStrings(c[key].items) ==>
      |r| == |c[key].items| && forall k :: 0 <= k < |r| ==> StrCap(r[k]) == c[key].items[k]
    ensures !(key in c && c[key].ListCap? && AllStrings(c[key].items)) ==> r == []
  {
    if key in c && c[key].ListCap? && AllStrings(c[key].items) then
      var items := c[key].items;
      seq(|items|, k requires 0 <= k < |items| => items[k].s)
    else []
  }

  /** `c.listget(key)`: the list as sent, or None. */
  function ListGet(c: Caps, key: string): (r: Option<seq<CapValue>>)
    ensures r.Some? <==> key in c && c[key].ListCap?
    ensures r.Some? ==> r.value == c[key].items
  {
    if key in c && c[key].ListCap? then Some(c[key].items) else None
  }

  /** How a list of strings goes on the wire. */
  function EncodeStrList(xs: seq<string>): CapValue
  {
    ListCap(seq(|xs|, k requires 0 <= k < |xs| => StrCap(xs[k])))
  }

  /** A value a client sends is read back unchanged by the matching getter. */
  lemma RoundTrip(c: Caps, key: string, b: bool, i: int, w: int, h: int, xs: seq<string>)
    ensures BoolGet(c[key := BoolCap(b)], key, !b) == b
    ensures IntGet(c[key := IntCap(i)], key, i + 1) == i
    ensures IntPair(c[key := ListCap([IntCap(w), IntCap(h)])], key) == Some((w, h))
    ensures StrListGet(c[key := EncodeStrList(xs)], key) == xs
  {
  }

  /** An absent key gives the documented default. */
  lemma AbsentGivesDefault(c: Caps, key: string, b: bool, i: int)
    requires key !in c
    ensures BoolGet(c, key, b) == b && IntGet(c, key, i) == i
    ensures IntPair(c, key).None? && StrListGet(c, key) == [] && ListGet(c, key).None?
  {
  }
}
