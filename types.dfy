// Shared value types of the assistant front end.

module Types {

  /** A value that may be absent: the model of TypeScript's `T | null`. */
  datatype Option<+T> = None | Some(value: T)

  /**
   * JavaScript truthiness of a `string | null`: both `null` and the empty
   * string are falsy.
   */
  predicate Truthy(s: Option<string>) {
    s.Some? && s.value != ""
  }

  /**
   * A quick-start catalogue entry. The icon component of the source record is
   * presentational and is not part of the model; every other field is a string.
   */
  datatype Skill = Skill(title: string, description: string, samplePrompt: string, color: string)
}
