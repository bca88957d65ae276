/** The configuration of a collection: a fixed parameter here. */
module Collections {
  import opened Json

  /** The schema of one property; `format` and `description` are annotations. */
  datatype PropertySchema = PropertySchema(
    kind: string,
    enum: Option<seq<Value>>,
    minValue: Option<real>,
    maxValue: Option<real>,
    minLength: Option<int>,
    maxLength: Option<int>)

  datatype CollectionConfig = CollectionConfig(
    collectionId: string,
    propertiesSchema: map<string, PropertySchema>,
    requiredProperties: seq<string>,
    visibilityValues: seq<string>,
    geometryType: Option<string>,
    organizations: seq<string>)
}
