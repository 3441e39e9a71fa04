/** The value records the plugin exchanges with the Thingiverse API. They are
    immutable once parsed from a response and carry no back-references. */
module Records {
  import opened Wrappers

  /** One published 3D-model project. */
  datatype Thing = Thing(id: int, thumbnail: string, name: string, url: string, description: string)

  /** One downloadable file of a Thing. */
  datatype ThingFile = ThingFile(id: int, thumbnail: string, name: string, url: string)

  /** The optional error object a failed request hands to its failure handler:
      the value of its `error` attribute when it has one, its own text form
      (`str(error)`), and the text form of its attribute dictionary. */
  datatype ErrorInfo = ErrorInfo(errorField: Option<string>, text: string, attributes: string)
}
