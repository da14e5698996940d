/** Shared vocabulary: optional values, results, HTTP errors, the role enum and
    the "first element satisfying a predicate" lookup that the backend spells
    `next((x for x in xs if ...), None)` or as a `for` loop with an early exit. */
module Common {

  datatype Option<+T> = None | Some(value: T)

  datatype Result<+T, +E> = Ok(value: T) | Err(error: E)

  /** A check that either passes or fails with an error and carries no value. */
  datatype Outcome<+E> = Pass | Fail(error: E)

  /** FastAPI's `HTTPException`, reduced to its status code. */
  datatype HttpError = HttpError(status: int)

  const BadRequest := HttpError(400)
  const Unauthorized := HttpError(401)
  const Forbidden := HttpError(403)
  const NotFound := HttpError(404)
  const InternalServerError := HttpError(500)

  /** The three roles of the dashboard (`Role` in the backend schemas and the client's auth context). */
  datatype Role = Admin | Editor | Viewer

  /** Index of the first element of `s` that satisfies `p`, if any. */
  function FindFirst<T>(s: seq<T>, p: T -> bool): (r: Option<nat>)
    ensures r.Some? ==> r.value < |s| && p(s[r.value])
    ensures r.Some? ==> forall j :: 0 <= j < r.value ==> !p(s[j])
    ensures r.None? <==> forall j :: 0 <= j < |s| ==> !p(s[j])
  {
    if s == [] then None
    else if p(s[0]) then Some(0)
    else
      match FindFirst(s[1..], p)
      case None => None
      case Some(k) => Some(k + 1)
  }

  /** Appending elements behind a match does not move the first match; appending
      behind a sequence without a match shifts the first match of the suffix. */
  lemma FindFirstAppend<T>(s: seq<T>, t: seq<T>, p: T -> bool)
    ensures FindFirst(s, p).Some? ==> FindFirst(s + t, p) == FindFirst(s, p)
    ensures FindFirst(s, p).None? ==>
      FindFirst(s + t, p) == match FindFirst(t, p) case None => None case Some(k) => Some(|s| + k)
  {
    var st := s + t;
    match FindFirst(s, p)
    case Some(i) =>
      assert st[i] == s[i];
    case None =>
      match FindFirst(t, p)
      case None =>
        forall j | 0 <= j < |st| ensures !p(st[j]) {
          if j < |s| { assert st[j] == s[j]; } else { assert st[j] == t[j - |s|]; }
        }
      case Some(k) =>
        assert st[|s| + k] == t[k];
        forall j | 0 <= j < |s| + k ensures !p(st[j]) {
          if j < |s| { assert st[j] == s[j]; } else { assert st[j] == t[j - |s|]; }
        }
  }
}
