/**
 * The sortable column headers of the user table: which one holds the caret
 * span and which ones carry the `dropup` class, and what a click on a header
 * sends.
 */
module SortHeaders {
  import opened Js
  import opened UserRequest

  /** The eight headers that `toggleSort` is bound to. */
  datatype Column = Id | Login | FirstName | LastName | Mail | Confirmed | LastLogin | DolosNb

  /** The header element's `id`, which is also the `sort_by` value. */
  function Name(c: Column): string {
    match c
    case Id => "id"
    case Login => "login"
    case FirstName => "first_name"
    case LastName => "last_name"
    case Mail => "mail"
    case Confirmed => "confirmed"
    case LastLogin => "last_login"
    case DolosNb => "dolos_nb"
  }

  /** The header whose `id` is `name`, if any: the element `$('#' + name)`. */
  function ColumnNamed(name: string): (r: Option<Column>)
    ensures r.Some? ==> Name(r.value) == name
    ensures r.None? ==> forall c :: Name(c) != name
  {
    if name == "id" then Some(Id)
    else if name == "login" then Some(Login)
    else if name == "first_name" then Some(FirstName)
    else if name == "last_name" then Some(LastName)
    else if name == "mail" then Some(Mail)
    else if name == "confirmed" then Some(Confirmed)
    else if name == "last_login" then Some(LastLogin)
    else if name == "dolos_nb" then Some(DolosNb)
    else None
  }

  /** Header state: the header holding the caret (at most one) and the `dropup` headers. */
  datatype Headers = Headers(caret: Option<Column>, dropup: set<Column>)

  /** What a click on a header produces: the new header state and the `dir` it sends. */
  datatype Sorted = Sorted(headers: Headers, dir: string)

  /** The direction the other handlers send: ASC iff some header has `dropup`. */
  function ListedDir(h: Headers): string {
    if h.dropup == {} then DESC else ASC
  }

  /** The headers right after page load: caret, and `dropup` when the initial dir is ASC. */
  function InitialHeaders(sortBy: string, dir: JsValue): (h: Headers)
    ensures h.caret == ColumnNamed(sortBy)
    ensures h.dropup <= (if h.caret.Some? then {h.caret.value} else {})
    ensures h.caret.Some? ==> (h.dropup != {} <==> dir == Str(ASC))
  {
    var col := ColumnNamed(sortBy);
    Headers(col, if col.Some? && dir == Str(ASC) then {col.value} else {})
  }

  /**
   * A click on header `c`. On the header that holds the caret, its `dropup`
   * flips and the direction follows the flag; on any other header the caret
   * moves there, no `dropup` changes and the direction is DESC.
   */
  function Toggle(h: Headers, c: Column): (r: Sorted)
    ensures r.headers.caret == Some(c)
    ensures r.headers.dropup - {c} == h.dropup - {c}
    ensures h.caret == Some(c) ==> (c in r.headers.dropup <==> c !in h.dropup)
    ensures h.caret != Some(c) ==> r.headers.dropup == h.dropup
    ensures r.dir == ASC <==> h.caret == Some(c) && c !in h.dropup
    ensures r.dir == ASC || r.dir == DESC
  {
    if h.caret == Some(c) then
      if c in h.dropup then Sorted(h.(dropup := h.dropup - {c}), DESC)
      else Sorted(h.(dropup := h.dropup + {c}), ASC)
    else
      Sorted(h.(caret := Some(c)), DESC)
  }

  /** The headers agree with themselves: only the caret header may carry `dropup`. */
  predicate Agrees(h: Headers) {
    h.dropup <= if h.caret.Some? then {h.caret.value} else {}
  }

  /**
   * While the headers agree, a click keeps them agreeing, and the direction
   * later handlers derive equals the one the click sent, unless the click
   * switches away from a column that carries `dropup`.
   */
  lemma ToggleKeepsAgreement(h: Headers, c: Column)
    requires Agrees(h)
    requires h.caret == Some(c) || h.dropup == {}
    ensures Agrees(Toggle(h, c).headers)
    ensures ListedDir(Toggle(h, c).headers) == Toggle(h, c).dir
  {
  }

  /**
   * Switching to another column while some header has `dropup` sends DESC,
   * but every later search, clear or pagination request derives ASC.
   */
  lemma SwitchKeepsStaleDropup(h: Headers, c: Column)
    requires h.caret != Some(c) && h.dropup != {}
    ensures Toggle(h, c).dir == DESC
    ensures ListedDir(Toggle(h, c).headers) == ASC
    ensures Agrees(Toggle(h, c).headers) <==> h.dropup == {c}
  {
  }

  /** Two clicks on the caret header restore the headers and send opposite directions. */
  lemma ToggleTwice(h: Headers, c: Column)
    requires h.caret == Some(c)
    ensures Toggle(Toggle(h, c).headers, c).headers == h
    ensures Toggle(Toggle(h, c).headers, c).dir != Toggle(h, c).dir
  {
  }

  /**
   * Coming back to a column that kept its `dropup` from before sends DESC,
   * and the next click on it removes the flag and sends DESC again: the
   * direction does not alternate from DESC on reselection.
   */
  lemma ReselectSendsDescTwice(h: Headers, c: Column)
    requires h.caret != Some(c) && c in h.dropup
    ensures Toggle(h, c).dir == DESC
    ensures Toggle(Toggle(h, c).headers, c).dir == DESC
    ensures c !in Toggle(Toggle(h, c).headers, c).headers.dropup
  {
  }
}
