/**
 * Resolution of configured cipher-suite and curve names against the static
 * tables: each name is trimmed and looked up, the first unknown name fails the
 * whole list, and an empty list gives the fixed defaults.
 */
module NameResolution {
  import opened Wrappers
  import opened TlsTables
  import opened Strings

  /** Every name, once trimmed, is a key of `table`. */
  predicate AllKnown<T>(names: seq<string>, table: map<string, T>) {
    forall i :: 0 <= i < |names| ==> TrimSpace(names[i]) in table
  }

  /** `k` is the position of the first name that is not a key of `table` once trimmed. */
  predicate FirstUnknown<T>(names: seq<string>, table: map<string, T>, k: int) {
    0 <= k < |names| && TrimSpace(names[k]) !in table
    && forall j :: 0 <= j < k ==> TrimSpace(names[j]) in table
  }

  /**
   * Looking up every name in order: the looked-up values, or the first
   * offending name exactly as it was configured.
   */
  function ResolveEach<T>(names: seq<string>, table: map<string, T>): (r: Result<seq<T>, string>)
    ensures r.Ok? ==> |r.value| == |names|
    ensures r.Err? ==> r.error in names
    decreases |names|
  {
    if names == [] then Ok([])
    else
      var last := names[|names| - 1];
      match ResolveEach(names[..|names| - 1], table)
      case Err(name) => Err(name)
      case Ok(prefix) =>
        if TrimSpace(last) in table then Ok(prefix + [table[TrimSpace(last)]]) else Err(last)
  }

  /** ResolveEach, falling back to `defaults` when it resolves nothing. */
  function Resolve<T>(names: seq<string>, table: map<string, T>, defaults: seq<T>): (r: Result<seq<T>, string>) {
    match ResolveEach(names, table)
    case Err(name) => Err(name)
    case Ok(values) => if |values| == 0 then Ok(defaults) else Ok(values)
  }

  /** A list of known names resolves, in order, one value per name; and only such a list does. */
  lemma {:induction false} ResolveEachKnown<T>(names: seq<string>, table: map<string, T>)
    ensures ResolveEach(names, table).Ok? <==> AllKnown(names, table)
    ensures ResolveEach(names, table).Ok? ==>
      forall i :: 0 <= i < |names| ==> ResolveEach(names, table).value[i] == table[TrimSpace(names[i])]
    decreases |names|
  {
    if names != [] {
      var init, last := names[..|names| - 1], names[|names| - 1];
      ResolveEachKnown(init, table);
      assert forall i :: 0 <= i < |init| ==> init[i] == names[i];
      var r := ResolveEach(names, table);
      if r.Ok? {
        var prefix := ResolveEach(init, table).value;
        assert r.value == prefix + [table[TrimSpace(last)]];
        assert forall i :: 0 <= i < |init| ==> r.value[i] == prefix[i];
      }
    }
  }

  /** A list with an unknown name fails, naming the first unknown name untrimmed. */
  lemma {:induction false} ResolveEachFirstUnknown<T>(names: seq<string>, table: map<string, T>, k: int)
    requires FirstUnknown(names, table, k)
    ensures ResolveEach(names, table) == Err(names[k])
    decreases |names|
  {
    var init := names[..|names| - 1];
    assert forall i :: 0 <= i < |init| ==> init[i] == names[i];
    if k == |names| - 1 {
      ResolveEachKnown(init, table);
    } else {
      ResolveEachFirstUnknown(init, table, k);
    }
  }

  /** Every failure is the first-unknown failure. */
  lemma {:induction false} ResolveEachErr<T>(names: seq<string>, table: map<string, T>) returns (k: int)
    requires ResolveEach(names, table).Err?
    ensures FirstUnknown(names, table, k) && ResolveEach(names, table).error == names[k]
    decreases |names|
  {
    var init := names[..|names| - 1];
    assert forall i :: 0 <= i < |init| ==> init[i] == names[i];
    if ResolveEach(init, table).Err? {
      k := ResolveEachErr(init, table);
    } else {
      ResolveEachKnown(init, table);
      k := |names| - 1;
    }
  }

  /** Only the empty list takes the default branch; a non-empty list resolves name by name. */
  lemma ResolveDefaults<T>(names: seq<string>, table: map<string, T>, defaults: seq<T>)
    ensures names == [] ==> Resolve(names, table, defaults) == Ok(defaults)
    ensures names != [] ==> Resolve(names, table, defaults) == ResolveEach(names, table)
  {
  }

  /** Names that trim alike resolve alike: same values on success, same position on failure. */
  lemma {:induction false} ResolveEachTrimInvariant<T>(a: seq<string>, b: seq<string>, table: map<string, T>)
    requires |a| == |b|
    requires forall i :: 0 <= i < |a| ==> TrimSpace(a[i]) == TrimSpace(b[i])
    ensures ResolveEach(a, table).Ok? <==> ResolveEach(b, table).Ok?
    ensures ResolveEach(a, table).Ok? ==> ResolveEach(a, table) == ResolveEach(b, table)
    ensures forall k :: FirstUnknown(a, table, k) ==>
      FirstUnknown(b, table, k) && ResolveEach(a, table) == Err(a[k]) && ResolveEach(b, table) == Err(b[k])
    decreases |a|
  {
    if a != [] {
      var ia, ib := a[..|a| - 1], b[..|b| - 1];
      assert forall i :: 0 <= i < |ia| ==> ia[i] == a[i] && ib[i] == b[i];
      ResolveEachTrimInvariant(ia, ib, table);
      forall k | FirstUnknown(a, table, k)
        ensures FirstUnknown(b, table, k) && ResolveEach(a, table) == Err(a[k]) && ResolveEach(b, table) == Err(b[k])
      {
        ResolveEachFirstUnknown(a, table, k);
        ResolveEachFirstUnknown(b, table, k);
      }
    }
  }

  /** The loop of the source: trim, look up, append, stop at the first unknown name. */
  method ResolveNames<T>(names: seq<string>, table: map<string, T>, defaults: seq<T>)
    returns (r: Result<seq<T>, string>)
    ensures r == Resolve(names, table, defaults)
  {
    var values: seq<T> := [];
    var i := 0;
    while i < |names|
      invariant 0 <= i <= |names|
      invariant |values| == i
      invariant forall j :: 0 <= j < i ==> TrimSpace(names[j]) in table
      invariant forall j :: 0 <= j < i ==> values[j] == table[TrimSpace(names[j])]
    {
      var key := TrimSpace(names[i]);
      if key !in table {
        ResolveEachFirstUnknown(names, table, i);
        return Err(names[i]);
      }
      values := values + [table[key]];
      i := i + 1;
    }
    ResolveEachKnown(names, table);
    assert ResolveEach(names, table).value == values;
    if |values| == 0 {
      return Ok(defaults);
    }
    return Ok(values);
  }

  /** The cipher suites a configured name list selects. */
  function CipherSuitesOf(names: seq<string>): (r: Result<seq<CipherSuiteId>, Error>) {
    match Resolve(names, SupportedCiphers, DefaultCipherSuites)
    case Err(name) => Err(InvalidCipherSuite(name))
    case Ok(suites) => Ok(suites)
  }

  /** The curve preferences a configured name list selects. */
  function CurvePreferencesOf(names: seq<string>): (r: Result<seq<CurveId>, Error>) {
    match Resolve(names, SupportedCurves, DefaultCurvePreferences)
    case Err(name) => Err(InvalidCurve(name))
    case Ok(curves) => Ok(curves)
  }

  method GetCipherSuites(names: seq<string>) returns (r: Result<seq<CipherSuiteId>, Error>)
    ensures r == CipherSuitesOf(names)
  {
    var resolved := ResolveNames(names, SupportedCiphers, DefaultCipherSuites);
    if resolved.Err? {
      return Err(InvalidCipherSuite(resolved.error));
    }
    return Ok(resolved.value);
  }

  method GetCurvePreferences(names: seq<string>) returns (r: Result<seq<CurveId>, Error>)
    ensures r == CurvePreferencesOf(names)
  {
    var resolved := ResolveNames(names, SupportedCurves, DefaultCurvePreferences);
    if resolved.Err? {
      return Err(InvalidCurve(resolved.error));
    }
    return Ok(resolved.value);
  }

  /**
   * The cipher-suite contract: known names map in order, the first unknown name
   * is reported as configured, and only the empty list yields the defaults.
   */
  lemma CipherSuitesContract(names: seq<string>)
    ensures names == [] ==> CipherSuitesOf(names) == Ok(DefaultCipherSuites)
    ensures CipherSuitesOf(names).Ok? <==> AllKnown(names, SupportedCiphers)
    ensures names != [] && CipherSuitesOf(names).Ok? ==>
      |CipherSuitesOf(names).value| == |names|
      && forall i :: 0 <= i < |names| ==> CipherSuitesOf(names).value[i] == SupportedCiphers[TrimSpace(names[i])]
    ensures forall k :: FirstUnknown(names, SupportedCiphers, k) ==> CipherSuitesOf(names) == Err(InvalidCipherSuite(names[k]))
  {
    ResolveEachKnown(names, SupportedCiphers);
    forall k | FirstUnknown(names, SupportedCiphers, k)
      ensures CipherSuitesOf(names) == Err(InvalidCipherSuite(names[k]))
    {
      ResolveEachFirstUnknown(names, SupportedCiphers, k);
    }
  }

  /** The same contract for curve preferences. */
  lemma CurvePreferencesContract(names: seq<string>)
    ensures names == [] ==> CurvePreferencesOf(names) == Ok(DefaultCurvePreferences)
    ensures CurvePreferencesOf(names).Ok? <==> AllKnown(names, SupportedCurves)
    ensures names != [] && CurvePreferencesOf(names).Ok? ==>
      |CurvePreferencesOf(names).value| == |names|
      && forall i :: 0 <= i < |names| ==> CurvePreferencesOf(names).value[i] == SupportedCurves[TrimSpace(names[i])]
    ensures forall k :: FirstUnknown(names, SupportedCurves, k) ==> CurvePreferencesOf(names) == Err(InvalidCurve(names[k]))
  {
    ResolveEachKnown(names, SupportedCurves);
    forall k | FirstUnknown(names, SupportedCurves, k)
      ensures CurvePreferencesOf(names) == Err(InvalidCurve(names[k]))
    {
      ResolveEachFirstUnknown(names, SupportedCurves, k);
    }
  }

  /** A name without surrounding white space is looked up as it is. */
  lemma TrimSpaceUnpadded(s: string)
    requires Unpadded(s)
    ensures TrimSpace(s) == s
  {
    assert [] + s + [] == s;
    TrimSpaceUnique([], s, []);
  }

  lemma DefaultNamesInTable()
    ensures forall i :: 0 <= i < |DefaultCipherSuiteNames| ==>
      DefaultCipherSuiteNames[i] in SupportedCiphers && SupportedCiphers[DefaultCipherSuiteNames[i]] == DefaultCipherSuites[i]
  {
  }

  lemma DefaultNamesTrimmed()
    ensures forall i :: 0 <= i < |DefaultCipherSuiteNames| ==> TrimSpace(DefaultCipherSuiteNames[i]) == DefaultCipherSuiteNames[i]
  {
    var names := DefaultCipherSuiteNames;
    assert forall i :: 0 <= i < |names| ==> Unpadded(names[i]);
    forall i | 0 <= i < |names| ensures TrimSpace(names[i]) == names[i] {
      TrimSpaceUnpadded(names[i]);
    }
  }

  /** Configuring the six default suites by name selects exactly the default list. */
  lemma DefaultCipherSuitesByName()
    ensures CipherSuitesOf(DefaultCipherSuiteNames) == Ok(DefaultCipherSuites)
  {
    var names := DefaultCipherSuiteNames;
    DefaultNamesInTable();
    DefaultNamesTrimmed();
    assert AllKnown(names, SupportedCiphers);
    ResolveEachKnown(names, SupportedCiphers);
    var v := ResolveEach(names, SupportedCiphers).value;
    assert forall i :: 0 <= i < |names| ==> v[i] == DefaultCipherSuites[i];
    assert v == DefaultCipherSuites;
  }

  /** Cipher-suite lists whose names trim alike select the same suites, or fail at the same position. */
  lemma CipherSuitesTrimInvariant(a: seq<string>, b: seq<string>)
    requires |a| == |b|
    requires forall i :: 0 <= i < |a| ==> TrimSpace(a[i]) == TrimSpace(b[i])
    ensures CipherSuitesOf(a).Ok? <==> CipherSuitesOf(b).Ok?
    ensures CipherSuitesOf(a).Ok? ==> CipherSuitesOf(a) == CipherSuitesOf(b)
    ensures forall k :: FirstUnknown(a, SupportedCiphers, k) ==>
      CipherSuitesOf(a) == Err(InvalidCipherSuite(a[k])) && CipherSuitesOf(b) == Err(InvalidCipherSuite(b[k]))
  {
    ResolveEachTrimInvariant(a, b, SupportedCiphers);
  }

  /** Curve lists whose names trim alike select the same curves, or fail at the same position. */
  lemma CurvePreferencesTrimInvariant(a: seq<string>, b: seq<string>)
    requires |a| == |b|
    requires forall i :: 0 <= i < |a| ==> TrimSpace(a[i]) == TrimSpace(b[i])
    ensures CurvePreferencesOf(a).Ok? <==> CurvePreferencesOf(b).Ok?
    ensures CurvePreferencesOf(a).Ok? ==> CurvePreferencesOf(a) == CurvePreferencesOf(b)
    ensures forall k :: FirstUnknown(a, SupportedCurves, k) ==>
      CurvePreferencesOf(a) == Err(InvalidCurve(a[k])) && CurvePreferencesOf(b) == Err(InvalidCurve(b[k]))
  {
    ResolveEachTrimInvariant(a, b, SupportedCurves);
  }

  /** " P256 " selects exactly what "P256" selects: the P-256 curve alone. */
  lemma PaddedCurveName()
    ensures CurvePreferencesOf([" P256 "]) == CurvePreferencesOf(["P256"]) == Ok([CurveP256])
  {
    TrimSpaceUnique([' '], "P256", [' ']);
    assert [' '] + "P256" + [' '] == " P256 ";
    TrimSpaceUnpadded("P256");
    SingleCurve([" P256 "]);
    SingleCurve(["P256"]);
  }

  lemma SingleCurve(names: seq<string>)
    requires |names| == 1 && TrimSpace(names[0]) == "P256"
    ensures CurvePreferencesOf(names) == Ok([CurveP256])
  {
    ResolveEachKnown(names, SupportedCurves);
    var v := ResolveEach(names, SupportedCurves).value;
    assert v[0] == CurveP256;
    assert v == [CurveP256];
  }
}
