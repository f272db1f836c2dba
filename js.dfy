/** JavaScript values as the pages read them from fetched rows, and the string
    operations the filters use. */
module Js {

  datatype Option<T> = None | Some(value: T)

  /** A value read from a fetched row through a property path.
      For a joined name (`family.occupations.name`), `Missing` means the
      joined object is null, so a plain `.` access throws and `?.` yields
      `undefined`; for an own column it is an absent property, read as
      `undefined` without throwing. `Null` is a null column. */
  datatype Field = Missing | Null | Str(s: string)

  /** What `new Date(value)` yields, read through `getFullYear()`,
      `getMonth()` (zero-based) and `getDate()`; an unparsable value gives an
      Invalid Date whose getters all return NaN. Parsing itself, the time
      zone and the clock are outside the model: callers supply the result. */
  datatype JsDate = ValidDate(year: int, month: nat, day: nat) | InvalidDate

  /** A date whose components are in the ranges the Date getters return. */
  predicate WellFormedDate(d: JsDate) {
    d.ValidDate? && d.month <= 11 && 1 <= d.day <= 31
  }

  /** JavaScript truthiness of a field. */
  predicate Truthy(f: Field) {
    f.Str? && f.s != ""
  }

  /** `f || fallback` for a string fallback. */
  function OrElse(f: Field, fallback: string): string {
    if Truthy(f) then f.s else fallback
  }

  lemma {:induction false} OrElseCases(f: Field, fallback: string)
    ensures Truthy(f) ==> OrElse(f, fallback) == f.s && OrElse(f, fallback) != ""
    ensures !Truthy(f) ==> OrElse(f, fallback) == fallback
  {
  }

  /** The property name a value becomes when used as an object key. */
  function KeyOf(f: Field): string {
    match f
    case Missing => "undefined"
    case Null => "null"
    case Str(s) => s
  }

  /** `String.prototype.toLowerCase`, restricted to ASCII letters. */
  function LowerChar(c: char): (r: char)
    ensures 'A' <= c <= 'Z' ==> r as int == c as int + 32
    ensures !('A' <= c <= 'Z') ==> r == c
  {
    if 'A' <= c <= 'Z' then (c as int + 32) as char else c
  }

  function Lower(s: string): (r: string)
    ensures |r| == |s|
    ensures forall i :: 0 <= i < |s| ==> r[i] == LowerChar(s[i])
  {
    seq(|s|, i requires 0 <= i < |s| => LowerChar(s[i]))
  }

  lemma LowerIdempotent(s: string)
    ensures Lower(Lower(s)) == Lower(s)
  {
  }

  /** `t` occurs in `s` starting at position `i`. */
  predicate OccursAt(s: string, t: string, i: int) {
    0 <= i && i + |t| <= |s| && s[i..i + |t|] == t
  }

  /** `s.includes(t)`. */
  predicate Includes(s: string, t: string) {
    exists i :: 0 <= i <= |s| - |t| && OccursAt(s, t, i)
  }

  /** `s.startsWith(t)`. */
  predicate StartsWith(s: string, t: string) {
    |t| <= |s| && s[..|t|] == t
  }

  lemma {:induction false} IncludesEmpty(s: string)
    ensures Includes(s, "") && StartsWith(s, "")
  {
    assert OccursAt(s, "", 0);
  }

  lemma {:induction false} IncludesSelf(s: string)
    ensures Includes(s, s)
  {
    assert OccursAt(s, s, 0);
  }

  lemma {:induction false} StartsWithIncludes(s: string, t: string)
    requires StartsWith(s, t)
    ensures Includes(s, t)
  {
    assert OccursAt(s, t, 0);
  }

  /** `f.toLowerCase().includes(term.toLowerCase())`; `None` when `f` is not
      a string and the call throws a TypeError. */
  function LowerIncludes(f: Field, term: string): (r: Option<bool>)
    ensures r.Some? <==> f.Str?
    ensures f.Str? ==> r == Some(Includes(Lower(f.s), Lower(term)))
  {
    match f
    case Str(s) => Some(Includes(Lower(s), Lower(term)))
    case _ => None
  }

  /** `(f && f.toLowerCase().includes(term.toLowerCase()))`: a falsy field
      never matches; a field whose containing object is null throws. */
  function GuardedLowerIncludes(f: Field, term: string): (r: Option<bool>)
    ensures r.None? <==> f.Missing?
    ensures r == Some(true) <==> Truthy(f) && Includes(Lower(f.s), Lower(term))
  {
    match f
    case Missing => None
    case Null => Some(false)
    case Str(s) => Some(s != "" && Includes(Lower(s), Lower(term)))
  }

  /** `f === sel` for a string `sel`; reading the field throws when its
      containing object is null. */
  function StrictEquals(f: Field, sel: string): (r: Option<bool>)
    ensures r.None? <==> f.Missing?
    ensures r == Some(true) <==> f == Str(sel)
  {
    match f
    case Missing => None
    case Null => Some(false)
    case Str(s) => Some(s == sel)
  }

  /** `sel === '' || f === sel`: an empty dropdown selection matches every
      record without reading the field. */
  function Selection(sel: string, f: Field): (r: Option<bool>)
    ensures sel == "" ==> r == Some(true)
    ensures sel != "" ==> r == StrictEquals(f, sel)
  {
    if sel == "" then Some(true) else StrictEquals(f, sel)
  }

  /** What a dropdown selection demands of a field once it can be read: an
      empty selection accepts everything, any other only the equal string. */
  predicate Matches(sel: string, f: Field) {
    sel == "" || f == Str(sel)
  }

  lemma {:induction false} SelectionMeaning(sel: string, f: Field)
    requires !f.Missing?
    ensures Selection(sel, f) == Some(Matches(sel, f))
  {
  }

  /** `sel === '' || family.column === sel` on an own column: reading an own
      column never throws, so neither does the comparison. */
  function ColumnSelection(sel: string, f: Field): (r: Option<bool>)
    ensures r == Some(Matches(sel, f))
  {
    Some(sel == "" || f == Str(sel))
  }

  /** `p0 || p1 || ...` evaluated left to right: the first part that throws
      or yields true decides; later parts are never evaluated. */
  function OrChain(parts: seq<Option<bool>>): (r: Option<bool>)
    decreases |parts|
  {
    if parts == [] then Some(false)
    else match parts[0]
      case None => None
      case Some(b) => if b then Some(true) else OrChain(parts[1..])
  }

  lemma {:induction false} OrChainDefined(parts: seq<Option<bool>>)
    requires forall i :: 0 <= i < |parts| ==> parts[i].Some?
    ensures OrChain(parts) == Some(exists i :: 0 <= i < |parts| && parts[i] == Some(true))
    decreases |parts|
  {
    if parts != [] {
      OrChainDefined(parts[1..]);
      assert forall i :: 1 <= i < |parts| ==> parts[1..][i - 1] == parts[i];
    }
  }

  lemma {:induction false} OrChainFirstThrows(parts: seq<Option<bool>>)
    requires parts != [] && parts[0].None?
    ensures OrChain(parts).None?
  {
  }

  lemma {:induction false} OrChainFirstTrue(parts: seq<Option<bool>>)
    requires parts != [] && parts[0] == Some(true)
    ensures OrChain(parts) == Some(true)
  {
  }

  /** Two `const`s computed one after the other and then combined with
      `&&`: if either of them throws, the whole callback throws; otherwise it
      yields true exactly when both are true. */
  function Both(a: Option<bool>, b: Option<bool>): (r: Option<bool>)
    ensures r.None? <==> a.None? || b.None?
    ensures r == Some(true) <==> a == Some(true) && b == Some(true)
    ensures r == Some(false) <==> (a == Some(false) && b.Some?) || (a.Some? && b == Some(false))
  {
    match a
    case None => None
    case Some(x) =>
      match b
      case None => None
      case Some(y) => Some(x && y)
  }

  // ---------------------------------------------------------------- search over several fields

  /** `f0.toLowerCase().includes(q) || f1.toLowerCase().includes(q) || ...`
      over the listed fields, left to right. */
  function AnyLowerIncludes(fields: seq<Field>, q: string): Option<bool> {
    OrChain(seq(|fields|, i requires 0 <= i < |fields| => LowerIncludes(fields[i], q)))
  }

  /** Some listed field contains the lower-cased term. */
  predicate SomeFieldContains(fields: seq<Field>, q: string) {
    exists i :: 0 <= i < |fields| && fields[i].Str? && Includes(Lower(fields[i].s), Lower(q))
  }

  /** When every listed field is a string the search does not throw, and it
      matches exactly when some field contains the term, ignoring ASCII case. */
  lemma {:induction false} AnyLowerIncludesStrings(fields: seq<Field>, q: string)
    requires forall i :: 0 <= i < |fields| ==> fields[i].Str?
    ensures AnyLowerIncludes(fields, q) == Some(SomeFieldContains(fields, q))
  {
    var parts := seq(|fields|, i requires 0 <= i < |fields| => LowerIncludes(fields[i], q));
    OrChainDefined(parts);
    if exists i :: 0 <= i < |parts| && parts[i] == Some(true) {
      var i :| 0 <= i < |parts| && parts[i] == Some(true);
      assert fields[i].Str? && Includes(Lower(fields[i].s), Lower(q));
    }
    if SomeFieldContains(fields, q) {
      var i :| 0 <= i < |fields| && fields[i].Str? && Includes(Lower(fields[i].s), Lower(q));
      assert parts[i] == Some(true);
    }
  }

  /** A search throws only when it reaches a field that is not a string. */
  lemma {:induction false} AnyLowerIncludesThrows(fields: seq<Field>, q: string)
    requires AnyLowerIncludes(fields, q).None?
    ensures exists i :: 0 <= i < |fields| && !fields[i].Str?
  {
    if forall i :: 0 <= i < |fields| ==> fields[i].Str? {
      AnyLowerIncludesStrings(fields, q);
    }
  }

  /** With an empty term the first field decides: a string there matches,
      whatever the other fields hold. */
  lemma {:induction false} AnyLowerIncludesEmptyTerm(fields: seq<Field>)
    requires fields != [] && fields[0].Str?
    ensures AnyLowerIncludes(fields, "") == Some(true)
  {
    IncludesEmpty(Lower(fields[0].s));
    var parts := seq(|fields|, i requires 0 <= i < |fields| => LowerIncludes(fields[i], ""));
    assert parts[0] == Some(true);
    OrChainFirstTrue(parts);
  }
}
