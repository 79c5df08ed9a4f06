/**
 * The parameter object that `getUserData` sends with its GET request for one
 * page of the user table.
 */
module UserRequest {
  import opened Js

  /** The JavaScript object `data`, as a map from property name to value. */
  type Params = map<string, JsValue>

  const ASC: string := "ASC"
  const DESC: string := "DESC"

  /** The properties every request carries. */
  const BaseKeys: set<string> := {"page", "nb", "sort_by", "dir"}

  /**
   * Builds the request object: the four base properties first, then `search`
   * only when the argument is neither `undefined`, `null` nor the empty string.
   */
  method GetUserData(page: JsValue, nb: JsValue, sortBy: JsValue, dir: JsValue, search: JsValue)
    returns (data: Params)
    ensures BaseKeys <= data.Keys
    ensures data.Keys - BaseKeys == if search !in {Undefined, Null, Str("")} then {"search"} else {}
    ensures data["page"] == page && data["nb"] == nb
    ensures data["sort_by"] == sortBy && data["dir"] == dir
    ensures "search" in data ==> data["search"] == search
  {
    data := map["page" := page, "nb" := nb, "sort_by" := sortBy, "dir" := dir];
    if search != Undefined && search != Null && search != Str("") {
      data := data["search" := search];
    }
  }
}
