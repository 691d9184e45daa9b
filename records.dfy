// The records the indicator expander reads and writes, and the error
// outcomes of a run. Only the fields the expander touches are spelled out;
// the sub-objects it never looks at are carried as opaque JSON payload.
module Records {

  /** A JSON value the expander never inspects (sharing, access, user
      references, attribute values, translations, ...), copied verbatim. */
  datatype Payload = Payload(json: string)

  /** One entry of an option set (a disease or an incident status). */
  datatype Option = Option(
    code: string,
    created: string,
    lastUpdated: string,
    name: string,
    id: string,
    sortOrder: int,
    optionSet: string,          // the id of the owning option set
    attributeValues: Payload,
    translations: Payload)

  /** A nested analytics period boundary of a program indicator. The
      expander rewrites only its id and timestamps; everything else
      (boundary type and target, access, sharing, favourites, translations,
      user and group accesses, attribute values) is carried as `rest`. */
  datatype Boundary = Boundary(
    id: string,
    created: string,
    lastUpdated: string,
    rest: Payload)

  /** A program indicator: a template read from the snapshot, or a generated
      copy. The expander rewrites the fields spelled out here except
      `analyticsPeriodBoundaries`, whose elements it rewrites; everything
      else (aggregation type, expression, analytics type, owning program,
      sharing, creator and last updater, translations, attribute values,
      legend sets) is carried as `rest`. */
  datatype Indicator = Indicator(
    id: string,
    created: string,
    lastUpdated: string,
    name: string,
    shortName: string,
    filter: string,
    analyticsPeriodBoundaries: seq<Boundary>,
    rest: Payload)

  /** The metadata snapshot the script starts from. */
  datatype Metadata = Metadata(
    system: Payload,
    options: seq<Option>,
    programIndicators: seq<Indicator>,
    trackedEntityAttributes: Payload)

  /** The two conditions under which a run throws. */
  datatype Error =
    | TemplateNotFound(templateId: string)
    | NoOptionsFound

  datatype Result<T> = Ok(value: T) | Err(error: Error)

  /** The outcome of a lookup that may find nothing. */
  datatype Lookup<T> = Missing | Found(value: T)
}
