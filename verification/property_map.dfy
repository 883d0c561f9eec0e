/** The property map the plugin hands to the OpenAPI configuration, and the
    rule by which one plugin parameter is laid over it (the three
    `addToPropertyMap` overloads of GenerateSchemaMojo). */
module PropertyMap {
  import opened Wrappers
  import opened Strings

  type Properties = map<string, string>

  /** A plugin parameter as the overloads see it: a `null` of any type, a
      `String`, a `Boolean`, or a `List<String>`. */
  datatype ParamValue = Absent | Str(text: string) | Bool(flag: bool) | StrList(items: seq<string>)

  /** The separator list-valued parameters are joined with. */
  const ListSeparator: string := ","

  /** `Boolean.toString`. */
  function BooleanText(b: bool): string {
    if b then "true" else "false"
  }

  /** The overloads leave the map alone for `null`, and the list overload also
      for an empty list. */
  predicate Skipped(v: ParamValue) {
    v.Absent? || (v.StrList? && |v.items| == 0)
  }

  /** The string a parameter that is not skipped is stored as. */
  function Rendered(v: ParamValue): string
    requires !Skipped(v)
  {
    match v
    case Str(t) => t
    case Bool(b) => BooleanText(b)
    case StrList(items) => Join(items, ListSeparator)
  }

  function Get(m: Properties, key: string): Option<string> {
    if key in m then Some(m[key]) else None
  }

  /** One overlay step: a skipped value changes nothing; any other value puts
      exactly `key`, and every other entry keeps its value. */
  function AddToPropertyMap(m: Properties, key: string, v: ParamValue): (r: Properties)
    ensures Skipped(v) ==> r == m
    ensures !Skipped(v) ==> r.Keys == m.Keys + {key} && r[key] == Rendered(v)
    ensures forall k :: k in m && k != key ==> k in r && r[k] == m[k]
  {
    if Skipped(v) then m else m[key := Rendered(v)]
  }

  /** The String overload stores the text unchanged. */
  lemma AddStringStoresText(m: Properties, key: string, text: string)
    ensures Get(AddToPropertyMap(m, key, Str(text)), key) == Some(text)
  {
  }

  /** The Boolean overload stores "true" or "false", and the stored text
      determines the flag. */
  lemma AddBooleanStoresText(m: Properties, key: string, b: bool)
    ensures var r := AddToPropertyMap(m, key, Bool(b));
            key in r && (r[key] == "true" <==> b) && (r[key] == "false" <==> !b)
  {
  }

  /** The list overload stores a one-element list as that element alone. */
  lemma AddListSingleton(m: Properties, key: string, item: string)
    ensures Get(AddToPropertyMap(m, key, StrList([item])), key) == Some(item)
  {
  }

  /** The list overload keeps every element, in order: splitting the stored
      value at commas gives the list back when no element holds a comma. */
  lemma AddListRoundTrip(m: Properties, key: string, items: seq<string>)
    requires |items| > 0
    requires forall i :: 0 <= i < |items| ==> ',' !in items[i]
    ensures var r := AddToPropertyMap(m, key, StrList(items));
            key in r && Split(r[key], ',') == items
  {
    SplitJoin(items, ',');
  }

  /** The keys of the entries of `params` that are not skipped. */
  function PresentKeys(params: seq<(string, ParamValue)>): set<string>
    decreases |params|
  {
    if |params| == 0 then {}
    else
      var last := params[|params| - 1];
      PresentKeys(params[..|params| - 1]) + (if Skipped(last.1) then {} else {last.0})
  }

  /** A key is present exactly when some entry for it is not skipped. */
  lemma {:induction false} PresentKeysMembership(params: seq<(string, ParamValue)>, key: string)
    ensures key in PresentKeys(params) <==>
              exists i :: 0 <= i < |params| && !Skipped(params[i].1) && params[i].0 == key
  {
    if |params| > 0 {
      var init := params[..|params| - 1];
      PresentKeysMembership(init, key);
      if exists i :: 0 <= i < |params| && !Skipped(params[i].1) && params[i].0 == key {
        var i :| 0 <= i < |params| && !Skipped(params[i].1) && params[i].0 == key;
        if i < |init| {
          assert init[i] == params[i];
        }
      }
      if exists i :: 0 <= i < |init| && !Skipped(init[i].1) && init[i].0 == key {
        var i :| 0 <= i < |init| && !Skipped(init[i].1) && init[i].0 == key;
        assert params[i] == init[i];
      }
    }
  }

  /** Lays `params` over `m` one after another, first entry first. The keys
      afterwards are the starting keys plus the keys of the entries that were
      not skipped. */
  function Overlay(m: Properties, params: seq<(string, ParamValue)>): (r: Properties)
    ensures r.Keys == m.Keys + PresentKeys(params)
    decreases |params|
  {
    if |params| == 0 then m
    else
      var last := params[|params| - 1];
      AddToPropertyMap(Overlay(m, params[..|params| - 1]), last.0, last.1)
  }

  /** The last entry for `key` that is not skipped decides its value: later
      entries take precedence over earlier ones and over the starting map. */
  lemma {:induction false} OverlayLastWins(m: Properties, params: seq<(string, ParamValue)>, key: string, i: nat)
    requires i < |params| && params[i].0 == key && !Skipped(params[i].1)
    requires forall j :: i < j < |params| ==> params[j].0 != key || Skipped(params[j].1)
    ensures key in Overlay(m, params) && Overlay(m, params)[key] == Rendered(params[i].1)
  {
    var init := params[..|params| - 1];
    if i < |params| - 1 {
      assert init[i] == params[i];
      forall j | i < j < |init|
        ensures init[j].0 != key || Skipped(init[j].1)
      {
        assert init[j] == params[j];
      }
      OverlayLastWins(m, init, key, i);
    }
  }

  /** A key no unskipped entry mentions keeps its starting value, or stays
      absent. */
  lemma {:induction false} OverlayKeepsUntouched(m: Properties, params: seq<(string, ParamValue)>, key: string)
    requires forall j :: 0 <= j < |params| ==> params[j].0 != key || Skipped(params[j].1)
    ensures Get(Overlay(m, params), key) == Get(m, key)
  {
    if |params| > 0 {
      var init := params[..|params| - 1];
      forall j | 0 <= j < |init|
        ensures init[j].0 != key || Skipped(init[j].1)
      {
        assert init[j] == params[j];
      }
      OverlayKeepsUntouched(m, init, key);
    }
  }
}
