/** The naming conventions between controller types and registry names. */
module UINames {
  import opened UITypes

  /** `type.Name.Remove(0, 3)`: the registry name of a controller type is its
      type name without the three-character prefix. `Remove` throws when the
      name is shorter than the prefix; that is `None` here. */
  function RegistryName(typeName: string): (r: Option<string>)
    ensures r.Some? <==> |typeName| >= 3
    ensures r.Some? ==> typeName == typeName[..3] + r.value
  {
    if |typeName| < 3 then None else Some(typeName[3..])
  }

  /** The controller type a load state instantiates for a template. */
  function UIType(template: string): (r: string)
    ensures |r| == |template| + 3
    ensures r[..3] == "KUI" && r[3..] == template
  {
    "KUI" + template
  }

  /** The registry name of the type a template instantiates is the template:
      the two conventions are inverse to each other. */
  lemma RegistryNameOfUIType(template: string)
    ensures RegistryName(UIType(template)) == Some(template)
  {
    assert UIType(template)[3..] == template;
  }

  /** Two type names with the same prefix and the same registry name are one name. */
  lemma RegistryNameInjective(a: string, b: string)
    requires RegistryName(a).Some? && RegistryName(a) == RegistryName(b)
    requires a[..3] == b[..3]
    ensures a == b
  {
    assert a == a[..3] + RegistryName(a).value;
    assert b == b[..3] + RegistryName(b).value;
  }
}
