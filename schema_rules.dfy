/** The two Mongoose validators the schemas of this model rely on. */
module SchemaRules {

  /** Why a document fails validation, with the path of the offending field. */
  datatype SchemaError = Required(path: string) | NotInEnum(path: string)

  /** `required: true` on a string: present and not empty (absent is ""). */
  predicate RequiredText(s: string) {
    |s| > 0
  }
}
