/**
 * The JavaScript values the sticker merge logic tells apart: a slot that is
 * `undefined`, one that is `null`, and one that holds a value; plus the
 * Option and Result wrappers used for optional fields and failing calls.
 */
module JsValues {

  /** A runtime value of the TypeScript type `T | null | undefined`. */
  datatype Nullish<T> = Undefined | Null | Defined(value: T)

  /** An optional field (`x?: T`) that is never `null`. */
  datatype Option<T> = None | Some(value: T)

  /** The outcome of an operation that may throw. */
  datatype Result<T, E> = Success(value: T) | Failure(error: E)

  /**
   * The nullish-coalescing operator `v ?? fallback`: the left operand
   * unless it is `null` or `undefined`.
   */
  function Coalesce<T>(v: Nullish<T>, fallback: Nullish<T>): Nullish<T>
  {
    if v.Defined? then v else fallback
  }

  /** `??` lets a defined value through and otherwise falls back, whatever the value is (false, 0 and "" included). */
  lemma CoalesceOverlay<T>(v: Nullish<T>, fallback: Nullish<T>)
    ensures v.Defined? ==> Coalesce(v, fallback) == v
    ensures !v.Defined? ==> Coalesce(v, fallback) == fallback
    ensures Coalesce(v, fallback).Defined? <==> v.Defined? || fallback.Defined?
  {
  }

  /** Coalescing twice with the same left operand changes nothing. */
  lemma CoalesceIdempotent<T>(v: Nullish<T>, fallback: Nullish<T>)
    ensures Coalesce(v, Coalesce(v, fallback)) == Coalesce(v, fallback)
  {
  }

  /** How a template literal `${v}` renders a string slot. */
  function TemplateString(v: Nullish<string>): string
  {
    match v
    case Undefined => "undefined"
    case Null => "null"
    case Defined(text) => text
  }

  /**
   * A template literal cannot tell a missing value from the text that
   * names it: `${undefined}` is the string "undefined" and `${null}` the
   * string "null". Defined strings render faithfully: two render alike
   * only when they are equal.
   */
  lemma TemplateStringConflatesNullish(a: string, b: string)
    ensures TemplateString(Undefined) == TemplateString(Defined("undefined"))
    ensures TemplateString(Null) == TemplateString(Defined("null"))
    ensures TemplateString(Defined(a)) == TemplateString(Defined(b)) <==> a == b
  {
  }
}
