/** The part of the Zod validation library the schemas use: issues with their paths, the
    checks of a string or number chain, and the library's own format validators, which are
    kept abstract. A failed check is not fatal: every check of a chain runs and each failure
    adds one issue, in declaration order, and an object reports its fields in key order. */
module Zod {
  import opened Js

  /** One step of an issue's path: an object key or an array index. */
  datatype PathKey = Key(name: string) | Index(i: nat)

  datatype Issue = Issue(path: seq<PathKey>, message: string)

  /** Outcome of `schema.safeParse(input)`. */
  datatype SafeParse<T> = Success(data: T) | Failure(issues: seq<Issue>)

  /** What one field's schema makes of its input: the parsed value, or its failure messages. */
  datatype Field<T> = Valid(value: T) | Invalid(messages: seq<string>)

  /** The library's own validators (`.email()`, `.uuid()`, `.url()`) and the number coercion of
      `z.coerce.number()` (`None` when it gives NaN). Their regular expressions are not modelled;
      every property below holds whatever they decide. */
  datatype Formats = Formats(
    isEmail: string -> bool,
    isUuid: string -> bool,
    isUrl: string -> bool,
    coerceNumber: string -> Option<real>)

  /** The message of one check, when the check fails. */
  function Check(ok: bool, message: string): (r: seq<string>)
    ensures r == [] <==> ok
    ensures !ok ==> r == [message]
  {
    if ok then [] else [message]
  }

  /** Failure messages of one object key, turned into issues at that key. */
  function At(key: string, messages: seq<string>): (r: seq<Issue>)
    ensures |r| == |messages|
    ensures forall i :: 0 <= i < |r| ==> r[i] == Issue([Key(key)], messages[i])
  {
    seq(|messages|, i requires 0 <= i < |messages| => Issue([Key(key)], messages[i]))
  }

  /** Issues of a nested value, with `step` put in front of each path. */
  function Nest(step: PathKey, issues: seq<Issue>): (r: seq<Issue>)
    ensures |r| == |issues|
    ensures forall i :: 0 <= i < |r| ==> r[i] == Issue([step] + issues[i].path, issues[i].message)
  {
    seq(|issues|, i requires 0 <= i < |issues| => Issue([step] + issues[i].path, issues[i].message))
  }

  /** The type name Zod reports for a value of the wrong type. */
  function TypeName(v: Value): string {
    match v
    case Undefined => "undefined"
    case Null => "null"
    case Bool(_) => "boolean"
    case Num(_) => "number"
    case NaN => "nan"
    case Str(_) => "string"
    case Obj(_) => "object"
  }

  /** Zod's default message for an input of the wrong type. */
  function TypeMessage(expected: string, v: Value): string {
    if v.Undefined? then "Required" else "Expected " + expected + ", received " + TypeName(v)
  }

  /** Zod's default message for a union none of whose options accepts the input. */
  const InvalidUnion := "Invalid input"

  /** `.int()`: `Number.isInteger`. */
  predicate IsInteger(q: real) {
    q.Floor as real == q
  }

  /** A character of the class `[a-zA-ZÀ-ÿ\s]`: an ASCII letter, one of U+00C0-U+00FF
      (Latin-1 letters together with the signs U+00D7 and U+00F7), or whitespace. */
  predicate IsNameChar(c: char) {
    'a' <= c <= 'z' || 'A' <= c <= 'Z' || '\U{00C0}' <= c <= '\U{00FF}' || IsSpace(c)
  }

  /** The regular expression `^[a-zA-ZÀ-ÿ\s]+$`. */
  predicate MatchesNamePattern(s: string) {
    s != [] && forall i :: 0 <= i < |s| ==> IsNameChar(s[i])
  }

  /** Strings the name pattern accepts have no character outside the Basic Multilingual
      Plane, so their JavaScript length is their number of characters. */
  lemma NamePatternLength(s: string)
    requires forall i :: 0 <= i < |s| ==> IsNameChar(s[i])
    ensures Length(s) == |s|
  {
  }
}
