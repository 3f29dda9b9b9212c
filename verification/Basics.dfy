module Basics {

  datatype Option<+T> = None | Some(value: T)

  predicate IsUuid(s: string) {
    |s| == 36 && '/' !in s
  }

  /** The text of a UUID: 36 characters, none of them a slash. */
  type Uuid = s: string | IsUuid(s) witness seq(36, _ => '0')
}
