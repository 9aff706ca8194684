/** The events exchanged by libyaml's parser, loader, dumper and emitter. */
module YamlEvents {
  import opened Wrappers

  const DEFAULT_SCALAR_TAG := "tag:yaml.org,2002:str"
  const DEFAULT_SEQUENCE_TAG := "tag:yaml.org,2002:seq"
  const DEFAULT_MAPPING_TAG := "tag:yaml.org,2002:map"

  datatype Style = AnyStyle | Plain | SingleQuoted | DoubleQuoted | Literal | Folded | Block | Flow

  datatype Version = Version(major: int, minor: int)

  datatype TagDirective = TagDirective(handle: string, prefix: string)

  datatype Event =
    | StreamStart
    | StreamEnd
    | DocumentStart(version: Option<Version>, directives: seq<TagDirective>, implicit: bool)
    | DocumentEnd(implicit: bool)
    | Alias(name: string)
    | Scalar(anchor: Option<string>, tag: Option<string>, value: string,
             plainImplicit: bool, quotedImplicit: bool, style: Style)
    | SequenceStart(anchor: Option<string>, tag: Option<string>, implicit: bool, style: Style)
    | SequenceEnd
    | MappingStart(anchor: Option<string>, tag: Option<string>, implicit: bool, style: Style)
    | MappingEnd
}
