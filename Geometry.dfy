/** `_filter_geom_kwargs`, which every widget class runs before handing keyword
    arguments to `pack`, `grid` or `place`. */
module Geometry {
  import opened Values

  /** The placement keywords that survive the filter. */
  const Allowed: set<string> :=
    {"after", "anchor", "before", "expand", "fill", "in", "ipadx", "ipady", "padx", "pady", "side"}

  /** How a `padding` value splits into `(padx, pady)`: a list or tuple of at
      least two elements gives its first two, anything else is used for both. */
  function PadPair(p: Value): (xy: (Value, Value))
    ensures p.Items? && |p.elems| >= 2 ==> xy == (p.elems[0], p.elems[1])
    ensures !(p.Items? && |p.elems| >= 2) ==> xy.0 == p && xy.1 == p
  {
    if p.Items? && |p.elems| >= 2 then (p.elems[0], p.elems[1]) else (p, p)
  }

  /** `d.setdefault(k, v)` as a new dictionary. */
  function SetDefault(d: map<string, Value>, k: string, v: Value): (r: map<string, Value>)
    ensures r.Keys == d.Keys + {k}
    ensures forall j :: j in d ==> r[j] == d[j]
    ensures k !in d ==> r[k] == v
  {
    if k in d then d else d[k := v]
  }

  /** An allow-listed keyword survives the filter when the caller gave it,
      or when it is `padx` / `pady` and the caller gave `padding`. */
  predicate Kept(kwargs: map<string, Value>, k: string)
  {
    k in Allowed && (k in kwargs || ("padding" in kwargs && (k == "padx" || k == "pady")))
  }

  /** The value a kept keyword ends up with: the caller's own, or its half of
      `padding`. */
  function KeptValue(kwargs: map<string, Value>, k: string): Value
    requires Kept(kwargs, k)
  {
    if k in kwargs then kwargs[k]
    else if k == "padx" then PadPair(kwargs["padding"]).0
    else PadPair(kwargs["padding"]).1
  }

  /** What the filter returns, key by key: an allow-listed keyword the caller
      gave keeps its value; `padx` and `pady` that the caller left out are
      taken from `padding` when that is present; nothing else is kept. */
  function Filtered(kwargs: map<string, Value>): (r: map<string, Value>)
    ensures r.Keys <= Allowed
    ensures "padding" !in r && "round" !in r
    ensures forall k :: k in Allowed && k in kwargs ==> k in r && r[k] == kwargs[k]
    ensures forall k :: k in r && k != "padx" && k != "pady" ==> k in kwargs
    ensures "padding" in kwargs ==> "padx" in r && "pady" in r
    ensures "padx" in r ==> "padx" in kwargs || "padding" in kwargs
    ensures "pady" in r ==> "pady" in kwargs || "padding" in kwargs
  {
    map k | k in Allowed && Kept(kwargs, k) :: KeptValue(kwargs, k)
  }

  /** A working dictionary that agrees with the filter on every allow-listed
      key gives the filter's result once cut down to the allow-list. */
  lemma KeepAllowed(kw: map<string, Value>, kwargs: map<string, Value>)
    requires forall k :: k in Allowed ==> (k in kw <==> Kept(kwargs, k))
    requires forall k :: k in Allowed && k in kw ==> kw[k] == KeptValue(kwargs, k)
    ensures (map k | k in kw && k in Allowed :: kw[k]) == Filtered(kwargs)
  {
    var r := map k | k in kw && k in Allowed :: kw[k];
    assert r.Keys == Filtered(kwargs).Keys;
  }

  /** `_filter_geom_kwargs`, step by step as the source does it: pop `padding`
      and `setdefault` `padx`/`pady` from it, pop `round`, then keep only the
      allow-listed keys. */
  method FilterGeomKwargs(kwargs: map<string, Value>) returns (filtered: map<string, Value>)
    ensures filtered == Filtered(kwargs)
  {
    var kw := kwargs;
    if "padding" in kw {
      var p := kw["padding"];
      kw := kw - {"padding"};
      if p.Items? && |p.elems| >= 2 {
        kw := SetDefault(kw, "padx", p.elems[0]);
        kw := SetDefault(kw, "pady", p.elems[1]);
      } else {
        kw := SetDefault(kw, "padx", p);
        kw := SetDefault(kw, "pady", p);
      }
    }
    assert "padding" !in Allowed && "round" !in Allowed;
    kw := kw - {"round"};
    KeepAllowed(kw, kwargs);
    filtered := map k | k in kw && k in Allowed :: kw[k];
  }

  /** The `padding` alias: `padx` and `pady` come from it exactly when the
      caller did not give them. */
  lemma PaddingExpansion(kwargs: map<string, Value>)
    requires "padding" in kwargs
    ensures "padx" in Filtered(kwargs) && "pady" in Filtered(kwargs)
    ensures Filtered(kwargs)["padx"] ==
      if "padx" in kwargs then kwargs["padx"] else PadPair(kwargs["padding"]).0
    ensures Filtered(kwargs)["pady"] ==
      if "pady" in kwargs then kwargs["pady"] else PadPair(kwargs["padding"]).1
  {
  }

  /** The filter is a projection: running it on its own output changes nothing. */
  lemma FilterIdempotent(kwargs: map<string, Value>)
    ensures Filtered(Filtered(kwargs)) == Filtered(kwargs)
  {
    var once := Filtered(kwargs);
    assert Filtered(once).Keys == once.Keys;
  }

  /** `padding=(4, 8)` with an unknown `color` keyword gives exactly
      `{padx: 4, pady: 8}`. */
  lemma PaddingPairExample()
    ensures Filtered(map["padding" := Items([Int(4), Int(8)]), "color" := Str("red")])
      == map["padx" := Int(4), "pady" := Int(8)]
  {
    var kw := map["padding" := Items([Int(4), Int(8)]), "color" := Str("red")];
    assert Filtered(kw).Keys == {"padx", "pady"};
  }

  /** `x`, `y`, `row` and `column` are not on the allow-list, so `place(x=…)`
      and `grid(row=…)` lose them. */
  lemma PositionKeywordsDropped(kwargs: map<string, Value>)
    ensures "x" !in Filtered(kwargs) && "y" !in Filtered(kwargs)
    ensures "row" !in Filtered(kwargs) && "column" !in Filtered(kwargs)
  {
    assert "x" !in Allowed;
    assert "y" !in Allowed;
    assert "row" !in Allowed;
    assert "column" !in Allowed;
  }
}
