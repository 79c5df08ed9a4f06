/**
 * The user list page: the header state, the rendered pagination bar and the
 * search box, changed by the page's event handlers, each of which issues one
 * `getUserData` request.
 */
module UserList {
  import opened Js
  import opened UserRequest
  import opened Pagination
  import opened SortHeaders

  /** The server-provided `settings` the page starts from. */
  datatype Settings = Settings(page: JsValue, nb: JsValue, sortBy: string, dir: JsValue)

  class UserListView {
    /** The header holding the caret span, if any. */
    var caret: Option<Column>
    /** The headers carrying the `dropup` class. */
    var dropup: set<Column>
    /** The pagination bar currently rendered (empty until a response arrives). */
    var bar: seq<Item>
    /** The value of the search box. */
    var searchText: string
    /** Every request issued so far, oldest first. */
    var sent: seq<Params>

    function HeaderState(): Headers
      reads this
    {
      Headers(caret, dropup)
    }

    /** `$('#user-table .caret').parent().attr('id')`. */
    function CaretId(): JsValue
      reads this
    {
      if caret.Some? then Str(Name(caret.value)) else Undefined
    }

    /** `$('#pagination li.active a').data('page')`. */
    function ActivePage(): JsValue
      reads this
    {
      var a := FirstActive(bar);
      if a.Some? then Num(a.value) else Undefined
    }

    /** The `data-page` of an anchor of the bar (Undefined for disabled ones). */
    static function DataPage(item: Item): JsValue {
      match item
      case Prev(t) => if t.Some? then Num(t.value) else Undefined
      case Gap => Undefined
      case Link(n, _) => Num(n)
      case Next(t) => if t.Some? then Num(t.value) else Undefined
    }

    /**
     * Document ready: request with the settings and the search box's value,
     * put the caret on the settings' column and `dropup` on it when the
     * settings' direction is ASC.
     */
    constructor Ready(settings: Settings, text: string)
      ensures HeaderState() == InitialHeaders(settings.sortBy, settings.dir)
      ensures bar == [] && searchText == text
      ensures |sent| == 1 && BaseKeys <= sent[0].Keys
      ensures sent[0].Keys - BaseKeys == if text == "" then {} else {"search"}
      ensures sent[0]["page"] == settings.page && sent[0]["nb"] == settings.nb
      ensures sent[0]["sort_by"] == Str(settings.sortBy) && sent[0]["dir"] == settings.dir
      ensures "search" in sent[0] ==> sent[0]["search"] == Str(text)
    {
      var req := GetUserData(settings.page, settings.nb, Str(settings.sortBy), settings.dir, Str(text));
      sent := [req];
      var h := InitialHeaders(settings.sortBy, settings.dir);
      caret := h.caret;
      dropup := h.dropup;
      bar := [];
      searchText := text;
    }

    /** A successful response for `page` of `nbPages`: the bar is rendered anew. */
    method Render(page: int, nbPages: int)
      modifies this`bar
      ensures bar == Bar(page, nbPages)
      ensures ActivePage() == if 1 <= page <= nbPages then Num(page) else Undefined
    {
      bar := BuildBar(page, nbPages);
      ActiveOfBar(page, nbPages);
    }

    /**
     * `toggleSort` on header `c`: update the headers as Toggle says and request
     * the active page, 10 rows, sorted by `c` in the direction sent, with the
     * search box's text.
     */
    method ToggleSort(c: Column) returns (req: Params)
      modifies this`caret, this`dropup, this`sent
      ensures HeaderState() == Toggle(old(HeaderState()), c).headers
      ensures sent == old(sent) + [req]
      ensures BaseKeys <= req.Keys
      ensures req.Keys - BaseKeys == if searchText == "" then {} else {"search"}
      ensures req["page"] == old(ActivePage()) && req["nb"] == Num(10)
      ensures req["sort_by"] == Str(Name(c)) && req["dir"] == Str(Toggle(old(HeaderState()), c).dir)
      ensures "search" in req ==> req["search"] == Str(searchText)
    {
      var dir := DESC;
      if caret == Some(c) {
        if c in dropup {
          dropup := dropup - {c};
        } else {
          dropup := dropup + {c};
          dir := ASC;
        }
      } else {
        caret := Some(c);
      }
      req := GetUserData(ActivePage(), Num(10), Str(Name(c)), Str(dir), Str(searchText));
      sent := sent + [req];
    }

    /**
     * Typing in the search box: request page 1, 10 rows, the caret column
     * and the derived direction, with the new text.
     */
    method SearchInput(text: string) returns (req: Params)
      modifies this`searchText, this`sent
      ensures searchText == text && sent == old(sent) + [req]
      ensures BaseKeys <= req.Keys
      ensures req.Keys - BaseKeys == if text == "" then {} else {"search"}
      ensures req["page"] == Num(1) && req["nb"] == Num(10)
      ensures req["sort_by"] == CaretId() && req["dir"] == Str(ListedDir(HeaderState()))
      ensures "search" in req ==> req["search"] == Str(text)
    {
      searchText := text;
      req := GetUserData(Num(1), Num(10), CaretId(),
                         Str(if |dropup| == 0 then DESC else ASC), Str(text));
      sent := sent + [req];
    }

    /** The clear button: empty the box and request page 1 with no search. */
    method Clear() returns (req: Params)
      modifies this`searchText, this`sent
      ensures searchText == "" && sent == old(sent) + [req]
      ensures req.Keys == BaseKeys
      ensures req["page"] == Num(1) && req["nb"] == Num(10)
      ensures req["sort_by"] == CaretId() && req["dir"] == Str(ListedDir(HeaderState()))
    {
      searchText := "";
      req := GetUserData(Num(1), Num(10), CaretId(),
                         Str(if |dropup| == 0 then DESC else ASC), Undefined);
      sent := sent + [req];
    }

    /**
     * A click on anchor `k` of the bar: request that anchor's page with 10
     * rows, the caret column and the derived direction, and no search.
     */
    method ClickPage(k: nat) returns (req: Params)
      requires k < |bar|
      modifies this`sent
      ensures sent == old(sent) + [req]
      ensures req.Keys == BaseKeys
      ensures req["page"] == DataPage(bar[k]) && req["nb"] == Num(10)
      ensures req["sort_by"] == CaretId() && req["dir"] == Str(ListedDir(HeaderState()))
    {
      req := GetUserData(DataPage(bar[k]), Num(10), CaretId(),
                         Str(if |dropup| == 0 then DESC else ASC), Undefined);
      sent := sent + [req];
    }
  }
}
