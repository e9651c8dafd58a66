/**
 * Field extraction with fallback: how one schema field is read out of the
 * raw settings map. Two shapes, chosen by the field's declared type: a text
 * field takes the entry verbatim, any other field parses it.
 */
module ConfigField {
  import opened Wrappers

  /**
   * A `String` field: the entry for `key` cloned as it is, or `default`
   * when the key is absent. Never fails.
   */
  function TextField(m: map<string, string>, key: string, default: string): (r: string)
    ensures key in m ==> r == m[key]
    ensures key !in m ==> r == default
  {
    Lookup(m, key).UnwrapOr(default)
  }

  /**
   * Any other field: the entry for `key` run through the type's `parse`.
   * An absent key and a failed parse both give `default`; no error escapes.
   */
  function ParseOr<T>(m: map<string, string>, key: string, default: T, parse: string -> Option<T>): (r: T)
    ensures key in m && parse(m[key]).Some? ==> r == parse(m[key]).value
    ensures key !in m || parse(m[key]).None? ==> r == default
  {
    Lookup(m, key).AndThen(parse).UnwrapOr(default)
  }

  /**
   * The generic arm with `String`'s own parser, which never fails and returns
   * its input, behaves exactly like the `String` arm.
   */
  lemma TextFieldIsInfallibleParse(m: map<string, string>, key: string, default: string)
    ensures TextField(m, key, default) == ParseOr(m, key, default, (s: string) => Some(s))
  {
  }

  /** Two maps that agree on one key, as far as a field reading that key can tell. */
  predicate AgreeOn(m1: map<string, string>, m2: map<string, string>, key: string)
  {
    (key in m1 <==> key in m2) && (key in m1 ==> m1[key] == m2[key])
  }

  /** A field depends on its own entry and on nothing else in the map. */
  lemma ParseOrLocal<T>(m1: map<string, string>, m2: map<string, string>, key: string, default: T, parse: string -> Option<T>)
    requires AgreeOn(m1, m2, key)
    ensures ParseOr(m1, key, default, parse) == ParseOr(m2, key, default, parse)
  {
  }

  lemma TextFieldLocal(m1: map<string, string>, m2: map<string, string>, key: string, default: string)
    requires AgreeOn(m1, m2, key)
    ensures TextField(m1, key, default) == TextField(m2, key, default)
  {
  }

  /**
   * A malformed entry is indistinguishable from an absent one: the field
   * comes out the same as from the map without that key.
   */
  lemma ParseFailureLikeAbsence<T>(m: map<string, string>, key: string, default: T, parse: string -> Option<T>)
    requires key in m && parse(m[key]).None?
    ensures ParseOr(m, key, default, parse) == ParseOr(m - {key}, key, default, parse) == default
  {
  }
}
