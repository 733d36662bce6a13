/** What a schema validator's `parseAsync` can produce, as the middleware
    sees it (src/index.ts:59, 66, 73 and 77-82). */
module Schema {
  import opened JavaScript

  /** One step of the path to an offending field: a property name or an
      array index. */
  datatype PathKey = Key(name: string) | Index(i: nat)

  /** One issue of a structured validation failure. The middleware passes
      issues through without looking inside them. */
  datatype Issue = Issue(code: string, path: seq<PathKey>, message: string)

  /** What `parseAsync` throws: a `ZodError` carrying its issue list, or any
      other value (a fault in the validator itself). */
  datatype Thrown = ZodError(issues: seq<Issue>) | Other(error: Value)

  /** The settled result of one `parseAsync` call. */
  datatype Verdict<T> = Ok(value: T) | Threw(thrown: Thrown)
}
