/** The router's signals: `Redirect`, whose dict-valued fields are normalised
    when it is built, and the two tags `NotFound` and `InvalidPathParams`
    (constructors of `Values.Error`). */
module Exceptions {
  import opened Wrappers
  import opened Values
  import opened Utils

  /** A `Redirect` as stored: path, query, params and hash verbatim, and the two
      dicts after `ensure_dict`. */
  datatype Redirect = Redirect(
    path: Value,
    query: Value,
    params: Value,
    hash: Value,
    navContext: seq<(string, Value)>,
    formProperties: seq<(string, Value)>)

  /** What application code may raise into the router: a redirect or an error. */
  datatype Raise = Redirecting(redirect: Redirect) | Throwing(error: Error)

  /** `Redirect(path=None, *, query=None, params=None, hash=None,
      nav_context=None, form_properties=None)`. */
  function NewRedirect(path: Value := Null, query: Value := Null, params: Value := Null,
                       hash: Value := Null, navContext: Value := Null,
                       formProperties: Value := Null): (r: Result<Redirect, Error>)
    ensures r.Ok? <==> (navContext.Null? || navContext.Dict?) && (formProperties.Null? || formProperties.Dict?)
    ensures r.Err? ==> r.error == TypeError
    ensures r.Ok? ==> r.value.path == path && r.value.query == query
    ensures r.Ok? ==> r.value.params == params && r.value.hash == hash
    ensures r.Ok? ==> r.value.navContext == (if navContext.Null? then [] else navContext.entries)
    ensures r.Ok? ==> r.value.formProperties == (if formProperties.Null? then [] else formProperties.entries)
  {
    var nav :- EnsureDict(navContext);
    var props :- EnsureDict(formProperties);
    Ok(Redirect(path, query, params, hash, nav, props))
  }

  /** Rebuilding a redirect from its own fields (`navigate(**r.__dict__)`) gives it back. */
  lemma NewRedirectFromFields(r: Redirect)
    ensures NewRedirect(r.path, r.query, r.params, r.hash, Dict(r.navContext), Dict(r.formProperties)) == Ok(r)
  {
  }

  /** With nothing given every field is None and both dicts are empty. */
  lemma NewRedirectDefaults()
    ensures NewRedirect() == Ok(Redirect(Null, Null, Null, Null, [], []))
  {
  }
}
