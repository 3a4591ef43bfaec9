/**
 * ControllerYML: a controller service as a template stores it -- its id,
 * its name, the canonical type name the capture assigned it, and the
 * properties whose configured values differ from their defaults.
 */
module ControllerYml {
  import opened Wrappers
  import opened Records
  import opened PropertyDelta

  /** The capture of one controller service under its canonical type name. */
  method ControllerYml(c: ControllerServiceEntity, canonical: NString) returns (r: Controller)
    ensures r.id == Some(c.id) && r.name == c.name && r.typeName == canonical
    ensures IsDelta(r.properties, c.descriptors, c.properties)
  {
    var props := ChangedProperties(c.descriptors, c.properties);
    r := Controller(Some(c.id), c.name, canonical, props);
  }
}
