/** The keyword-to-colour table both the edge function and the exporter scan:
    the first keyword, in listed order, that occurs in a lower-cased theme
    name decides its colour. */
module Palette {
  import opened Wrappers
  import opened JsText

  datatype Swatch = Swatch(key: string, color: string)

  /** True when the keyword of entry `i` occurs in `name`. */
  predicate Hits(palette: seq<Swatch>, name: string, i: nat)
    requires i < |palette|
  {
    Includes(name, palette[i].key)
  }

  /** The index of the first entry at or after `from` whose keyword occurs in
      `name`, or None when no entry from there on matches. */
  function FirstMatchFrom(palette: seq<Swatch>, name: string, from: nat): (r: Option<nat>)
    requires from <= |palette|
    ensures r.Some? ==> from <= r.value < |palette| && Hits(palette, name, r.value)
    ensures r.Some? ==> forall j :: from <= j < r.value ==> !Hits(palette, name, j)
    ensures r.None? ==> forall j :: from <= j < |palette| ==> !Hits(palette, name, j)
    decreases |palette| - from
  {
    if from == |palette| then None
    else if Includes(name, palette[from].key) then Some(from)
    else FirstMatchFrom(palette, name, from + 1)
  }

  /** The scan `for (const [key, color] of Object.entries(colors))` with its
      early return, over the whole table. */
  function FirstMatch(palette: seq<Swatch>, name: string): Option<nat> {
    FirstMatchFrom(palette, name, 0)
  }

  /** A hit with no earlier hit is the one the scan returns. */
  lemma FirstHitIsFirstMatch(palette: seq<Swatch>, name: string, i: nat)
    requires i < |palette| && Hits(palette, name, i)
    requires forall j :: 0 <= j < i ==> !Hits(palette, name, j)
    ensures FirstMatch(palette, name) == Some(i)
  {
  }

  /** The scan passes over an entry that does not hit. */
  lemma SkipMiss(palette: seq<Swatch>, name: string, from: nat)
    requires from < |palette| && !Hits(palette, name, from)
    ensures FirstMatchFrom(palette, name, from) == FirstMatchFrom(palette, name, from + 1)
  {
  }

  /** The scan stops at an entry that hits. */
  lemma HitStops(palette: seq<Swatch>, name: string, from: nat)
    requires from < |palette| && Hits(palette, name, from)
    ensures FirstMatchFrom(palette, name, from) == Some(from)
  {
  }

  /** The colour a palette scan settles on: that of the first entry whose key
      occurs in the name, else `default`. */
  function PickColor(palette: seq<Swatch>, name: string, default: string): (color: string)
    ensures forall i :: 0 <= i < |palette| && Hits(palette, name, i) &&
                        (forall j :: 0 <= j < i ==> !Hits(palette, name, j)) ==>
                        color == palette[i].color
    ensures (forall i :: 0 <= i < |palette| ==> !Hits(palette, name, i)) ==> color == default
    ensures color == default || exists i :: 0 <= i < |palette| && color == palette[i].color
  {
    match FirstMatch(palette, name)
    case Some(i) => palette[i].color
    case None => default
  }
}
