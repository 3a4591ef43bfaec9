/**
 * The rewrite of id references in processor properties on import: a
 * property value that equals a template id the tracker has seen (in
 * practice, the template id of a controller service) is replaced by the
 * live id of the component created for it (ImportCommand.makeProcessor,
 * ObjectBuilder.makeProcessor).
 */
module PropertyRewrite {
  import opened Wrappers
  import opened Records

  /** The properties with every tracked template id replaced by its live id. */
  function Rewritten(props: map<string, NString>, ids: map<NString, string>): (r: map<string, NString>)
    ensures r.Keys == props.Keys
    ensures forall k :: k in props && props[k].Some? && props[k] in ids ==> r[k] == Some(ids[props[k]])
    ensures forall k :: k in props && r[k] != props[k] ==> props[k].Some? && props[k] in ids
  {
    map k | k in props :: if props[k].Some? && props[k] in ids then Some(ids[props[k]]) else props[k]
  }

  /**
   * The loop over the property keys: each value is looked up among the
   * tracked ids and replaced when found (the source replaces it in the map
   * it iterates; the model builds the new map beside it).
   */
  method RewriteIds(props: map<string, NString>, ids: map<NString, string>) returns (out: map<string, NString>)
    ensures out == Rewritten(props, ids)
  {
    out := props;
    var rest := props.Keys;
    while rest != {}
      invariant rest <= props.Keys && out.Keys == props.Keys
      invariant forall k :: k in props && k !in rest ==> out[k] == Rewritten(props, ids)[k]
      invariant forall k :: k in rest ==> out[k] == props[k]
      decreases rest
    {
      var k :| k in rest;
      var v := props[k];
      if v.Some? {
        var found := Get(ids, v);
        if found.Some? {
          out := out[k := found];
        }
      }
      rest := rest - {k};
    }
  }

  /**
   * The rewrite as written: the new value is stored back into the template
   * element, so a template file that two process-group elements reference
   * is rewritten a second time from the already rewritten values.
   */
  function SharedRewriteAsWritten(props: map<string, NString>, first: map<NString, string>,
                                  second: map<NString, string>): (r: map<string, NString>)
    ensures r.Keys == props.Keys
  {
    Rewritten(Rewritten(props, first), second)
  }

  /**
   * A controller reference "c1" resolved to "node-1" by the first import of
   * a shared template stays "node-1" in the second import, although the
   * second import created its own controller "node-2" for "c1".
   */
  lemma SharedTemplateKeepsFirstIds()
    ensures var props := map["Service" := Some("c1")];
      SharedRewriteAsWritten(props, map[Some("c1") := "node-1"], map[Some("c1") := "node-2"])["Service"] == Some("node-1")
      && Rewritten(props, map[Some("c1") := "node-2"])["Service"] == Some("node-2")
  {
    var props := map["Service" := Some("c1")];
    var once := Rewritten(props, map[Some("c1") := "node-1"]);
    assert once["Service"] == Some("node-1");
    assert Some("node-1") != Some("c1");
  }
}
