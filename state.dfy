/** What the visitors accumulate while they walk one module: the members of
    the behaviour object, the component's methods and property descriptors,
    the imported pages, components and templates, the component relations,
    the JSON configuration, the imports the script keeps, and the parts of
    the output set along the way. */
module Accumulators {
  import opened Wrappers
  import opened OrderedMaps
  import opened Ast
  import opened Roles

  /** One entry of `Properties`: the type set from `propTypes` and the default
      set from `defaultProps`. */
  datatype PropSpec = PropSpec(typeName: Option<string>, default: Option<Init>)

  const NoSpec: PropSpec := PropSpec(None, None)

  datatype State = State(
    kind: string,                       // output.type
    attrs: seq<Prop>,                   // Attrs
    methods: seq<(string, Fn)>,         // Methods
    properties: OMap<PropSpec>,         // Properties
    pages: seq<string>,                 // ImportPages
    components: OMap<string>,           // ImportComponents
    templates: OMap<string>,            // ImportTemplates
    relations: OMap<string>,            // ComponentRelations
    jsonAttrs: OMap<Json>,              // JSONAttrs
    kept: seq<Import>,                  // the import declarations left in the script
    name: Option<string>,               // output.name
    wxml: Option<string>)               // output.wxml

  function Initial(): State {
    State(LocalModule, [], [], [], [], [], [], [], [], [], None, None)
  }
}
