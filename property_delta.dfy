/**
 * The property delta that capture stores for processors (ElementYML
 * handleProperties) and controller services (ControllerYML): of all the
 * properties a component's descriptors declare, only those whose
 * configured value differs from the descriptor's default.
 */
module PropertyDelta {
  import opened Wrappers
  import opened Records

  /** configuredValues.get(name): null when the name is absent or mapped to null. */
  function ConfiguredValue(values: map<string, NString>, k: string): (r: NString)
    ensures r.Some? ==> k in values && values[k] == r
  {
    if k in values then values[k] else None
  }

  /** The test both capture sites write out: null against non-null, or a non-null default not equal to the value. */
  predicate Differs(default: NString, configured: NString) {
    (default.None? && configured.Some?) || (default.Some? && Some(default.value) != configured)
  }

  /** The delta of configured values against descriptor defaults. */
  ghost predicate IsDelta(props: map<string, NString>, descriptors: map<string, NString>, values: map<string, NString>) {
    (forall k :: k in props <==> k in descriptors && descriptors[k] != ConfiguredValue(values, k))
    && (forall k :: k in props ==> props[k] == ConfiguredValue(values, k))
  }

  /**
   * The loop over the descriptor names: a property is kept, with its
   * configured value, exactly when that value is not the descriptor's
   * default.
   */
  method ChangedProperties(descriptors: map<string, NString>, values: map<string, NString>)
    returns (props: map<string, NString>)
    ensures IsDelta(props, descriptors, values)
  {
    props := map[];
    var rest := descriptors.Keys;
    while rest != {}
      invariant rest <= descriptors.Keys
      invariant forall k :: k in props <==> k in descriptors && k !in rest && descriptors[k] != ConfiguredValue(values, k)
      invariant forall k :: k in props ==> props[k] == ConfiguredValue(values, k)
      decreases |rest|
    {
      var k :| k in rest;
      var configured := ConfiguredValue(values, k);
      if Differs(descriptors[k], configured) {
        props := props[k := configured];
      }
      rest := rest - {k};
    }
  }

  /** The value a property takes when the delta is applied over the descriptor defaults. */
  function Effective(props: map<string, NString>, descriptors: map<string, NString>, k: string): NString
    requires k in descriptors
  {
    if k in props then props[k] else descriptors[k]
  }

  /** Applying the delta over the defaults restores every configured value of a declared property. */
  lemma DeltaRestores(props: map<string, NString>, descriptors: map<string, NString>, values: map<string, NString>)
    requires IsDelta(props, descriptors, values)
    ensures forall k :: k in descriptors ==> Effective(props, descriptors, k) == ConfiguredValue(values, k)
  {
  }

  /** The delta is determined by the defaults and the configuration: no entry is optional. */
  lemma DeltaUnique(p1: map<string, NString>, p2: map<string, NString>,
                    descriptors: map<string, NString>, values: map<string, NString>)
    requires IsDelta(p1, descriptors, values) && IsDelta(p2, descriptors, values)
    ensures p1 == p2
  {
    assert p1.Keys == p2.Keys;
  }

  /** A configuration that matches every default leaves nothing to store. */
  lemma AllDefaultsEmptyDelta(props: map<string, NString>, descriptors: map<string, NString>, values: map<string, NString>)
    requires IsDelta(props, descriptors, values)
    requires forall k :: k in descriptors ==> ConfiguredValue(values, k) == descriptors[k]
    ensures props == map[]
  {
    assert props.Keys == {};
  }
}
