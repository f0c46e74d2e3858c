/** The knowledge-base manager of the client. As in the inbox screen, each
    handler is one atomic step: the outcome of every awaited request and
    the user's answer to the confirmation dialog are parameters, and the
    requests issued are returned in order. The endpoints it calls are
    treated as opaque: each request either succeeds or raises. */
module KnowledgeBase {
  import opened Wrappers

  /** A knowledge item. `id` is absent on an item made from the add form. */
  datatype Item = Item(id: Option<string>, title: string, content: string, category: string)

  /** The contents of the add form. */
  datatype FormData = FormData(title: string, content: string, category: string)

  datatype Request =
    | ListItems
    | UpdateItem(id: string, item: Item)
    | CreateItem(item: Item)
    | DeleteItem(id: string)

  datatype KbState = KbState(
    knowledgeItems: seq<Item>,
    loading: bool,
    editingItem: Option<Item>,
    showAddForm: bool,
    formData: FormData)

  datatype Step = Step(state: KbState, sent: seq<Request>)

  const GENERAL := "general"
  const BLANK_FORM := FormData("", "", GENERAL)
  const INITIAL := KbState([], false, None, false, BLANK_FORM)

  /** The three items shown when the list cannot be fetched. */
  const SEED_ITEMS := [
    Item(Some("faq_01"), "Refund Policy",
         "We offer full refunds within 30 days of purchase. To request a refund, contact support with your order ID.",
         "policy"),
    Item(Some("faq_02"), "Shipping Information",
         "Standard shipping takes 3-5 business days. Express shipping is available for 1-2 day delivery.",
         "shipping"),
    Item(Some("tech_01"), "Technical Support",
         "For technical issues, please provide your device information, browser version, and steps to reproduce the issue.",
         "technical")
  ]

  /** The badge colour of each known category. */
  const CATEGORY_COLORS: map<string, string> := map[
    "policy" := "bg-blue-100 text-blue-800",
    "shipping" := "bg-green-100 text-green-800",
    "technical" := "bg-purple-100 text-purple-800",
    "billing" := "bg-yellow-100 text-yellow-800",
    GENERAL := "bg-gray-100 text-gray-800"
  ]

  /** The names an object literal inherits from `Object.prototype`: looking
      one of them up in the colour table yields the inherited member, which
      is truthy, instead of a colour. */
  const OBJECT_PROTOTYPE_KEYS: set<string> := {
    "constructor", "hasOwnProperty", "isPrototypeOf", "propertyIsEnumerable",
    "toLocaleString", "toString", "valueOf", "__proto__",
    "__defineGetter__", "__defineSetter__", "__lookupGetter__", "__lookupSetter__"
  }

  /** The categories the item form offers. */
  const FORM_CATEGORIES: seq<string> := [GENERAL, "policy", "shipping", "technical", "billing"]

  /** What the colour lookup yields: a class list, or an inherited member of
      the object prototype. */
  datatype CategoryStyle = Classes(classes: string) | PrototypeMember(name: string)

  /** An item id counts only when present and non-empty. */
  predicate HasId(item: Item) {
    item.id.Some? && item.id.value != ""
  }

  // ---------------------------------------------------------------------------
  // Handlers as steps

  /** `fetchKnowledgeBase`: the list is replaced by the answer, or by the
      seed list when the request raises; nothing else changes and loading
      ends false. */
  function FetchStep(s: KbState, list: Option<seq<Item>>): (t: Step)
    ensures t.sent == [ListItems]
    ensures list.Some? ==> t.state.knowledgeItems == list.value
    ensures list.None? ==> t.state.knowledgeItems == SEED_ITEMS
    ensures t.state == s.(knowledgeItems := t.state.knowledgeItems, loading := false)
  {
    var items := if list.Some? then list.value else SEED_ITEMS;
    Step(s.(loading := true).(knowledgeItems := items).(loading := false), [ListItems])
  }

  /** The request a save issues: an update for an item with an id, a create
      otherwise. */
  function SaveRequest(item: Item): (r: Request)
    ensures r.UpdateItem? <==> HasId(item)
    ensures r.CreateItem? <==> !HasId(item)
    ensures r.UpdateItem? ==> r.id == item.id.value && r.item == item
    ensures r.CreateItem? ==> r.item == item
  {
    if HasId(item) then UpdateItem(item.id.value, item) else CreateItem(item)
  }

  /** `handleSave`: on success the list is refetched and the editor, the
      add form and the form data are reset; on failure only loading
      changes. Loading ends false either way. */
  function SaveStep(s: KbState, item: Item, saved: bool, list: Option<seq<Item>>): (t: Step)
    ensures !t.state.loading
    ensures !saved ==> t == Step(s.(loading := false), [SaveRequest(item)])
    ensures saved ==> t.sent == [SaveRequest(item), ListItems]
    ensures saved ==> t.state == KbState(FetchStep(s, list).state.knowledgeItems, false, None, false, BLANK_FORM)
  {
    var busy := s.(loading := true);
    if saved then
      var fetched := FetchStep(busy, list);
      Step(fetched.state.(editingItem := None, showAddForm := false, formData := BLANK_FORM, loading := false),
           [SaveRequest(item)] + fetched.sent)
    else
      Step(busy.(loading := false), [SaveRequest(item)])
  }

  /** `handleDelete`: nothing at all when the user does not confirm;
      otherwise the delete is sent and, when it succeeds, the list is
      refetched. Loading ends false. */
  function DeleteStep(s: KbState, id: string, confirmed: bool, deleted: bool, list: Option<seq<Item>>): (t: Step)
    ensures !confirmed ==> t == Step(s, [])
    ensures confirmed ==> !t.state.loading
    ensures confirmed && !deleted ==> t == Step(s.(loading := false), [DeleteItem(id)])
    ensures confirmed && deleted ==> t == Step(FetchStep(s, list).state, [DeleteItem(id), ListItems])
  {
    if !confirmed then Step(s, [])
    else
      var busy := s.(loading := true);
      if deleted then
        var fetched := FetchStep(busy, list);
        Step(fetched.state.(loading := false), [DeleteItem(id)] + fetched.sent)
      else
        Step(busy.(loading := false), [DeleteItem(id)])
  }

  // ---------------------------------------------------------------------------
  // Rendering rules

  /** `getCategoryColor`: the colour of a known category; the inherited
      member for a name of the object prototype; the general colour for any
      other category. */
  function CategoryColor(category: string): (c: CategoryStyle)
    ensures category in CATEGORY_COLORS ==> c == Classes(CATEGORY_COLORS[category])
    ensures category in OBJECT_PROTOTYPE_KEYS ==> c == PrototypeMember(category)
    ensures category !in CATEGORY_COLORS && category !in OBJECT_PROTOTYPE_KEYS ==> c == Classes(CATEGORY_COLORS[GENERAL])
    ensures c.Classes? <==> category !in OBJECT_PROTOTYPE_KEYS
    ensures c.Classes? ==> c.classes in CATEGORY_COLORS.Values
  {
    if category in CATEGORY_COLORS then Classes(CATEGORY_COLORS[category])
    else if category in OBJECT_PROTOTYPE_KEYS then PrototypeMember(category)
    else Classes(CATEGORY_COLORS[GENERAL])
  }

  /** The Save button of the item form is enabled only when the title and
      the content are both non-empty. */
  predicate SaveEnabled(localData: Item) {
    localData.title != "" && localData.content != ""
  }

  /** The item a form starts from: the item being edited, or a blank item
      without an id. */
  function FormStart(editing: Option<Item>): (i: Item)
    ensures editing.Some? ==> i == editing.value
    ensures editing.None? ==> !HasId(i) && i.title == "" && i.content == "" && i.category == GENERAL
  {
    match editing
    case Some(item) => item
    case None => Item(None, BLANK_FORM.title, BLANK_FORM.content, BLANK_FORM.category)
  }

  // ---------------------------------------------------------------------------
  // Properties

  /** A save whose refetch fails leaves exactly the seed list. */
  lemma SaveThenFailedFetch(s: KbState, item: Item)
    ensures SaveStep(s, item, true, None).state.knowledgeItems == SEED_ITEMS
  {
  }

  /** Every category the item form offers gets a colour of its own. */
  lemma FormCategoriesColoured()
    ensures forall i :: 0 <= i < |FORM_CATEGORIES| ==>
      CategoryColor(FORM_CATEGORIES[i]) == Classes(CATEGORY_COLORS[FORM_CATEGORIES[i]])
  {
  }

  /** A form opened from the add button can never be saved as it starts and,
      however its fields are edited, its save is a create; a form opened on
      an existing item saves as an update. */
  lemma FormDispatch(editing: Option<Item>, title: string, content: string, category: string)
    ensures editing.None? ==> !SaveEnabled(FormStart(editing))
    ensures var edited := FormStart(editing).(title := title, content := content, category := category);
      SaveRequest(edited).UpdateItem? <==> editing.Some? && HasId(editing.value)
  {
  }

  /** Fetching is idempotent for the same outcome. */
  lemma FetchIdempotent(s: KbState, list: Option<seq<Item>>)
    ensures FetchStep(FetchStep(s, list).state, list).state == FetchStep(s, list).state
  {
  }

  // ---------------------------------------------------------------------------
  // The component

  class Manager {
    var knowledgeItems: seq<Item>
    var loading: bool
    var editingItem: Option<Item>
    var showAddForm: bool
    var formData: FormData

    function State(): KbState
      reads this
    {
      KbState(knowledgeItems, loading, editingItem, showAddForm, formData)
    }

    constructor ()
      ensures State() == INITIAL
    {
      knowledgeItems, loading, editingItem, showAddForm, formData := [], false, None, false, BLANK_FORM;
    }

    method FetchKnowledgeBase(list: Option<seq<Item>>) returns (sent: seq<Request>)
      modifies this
      ensures State() == FetchStep(old(State()), list).state
      ensures sent == FetchStep(old(State()), list).sent
    {
      loading := true;
      sent := [ListItems];
      if list.Some? {
        knowledgeItems := list.value;
      } else {
        knowledgeItems := SEED_ITEMS;
      }
      loading := false;
    }

    method HandleSave(item: Item, saved: bool, list: Option<seq<Item>>) returns (sent: seq<Request>)
      modifies this
      ensures State() == SaveStep(old(State()), item, saved, list).state
      ensures sent == SaveStep(old(State()), item, saved, list).sent
    {
      loading := true;
      if HasId(item) {
        sent := [UpdateItem(item.id.value, item)];
      } else {
        sent := [CreateItem(item)];
      }
      if saved {
        var fetched := FetchKnowledgeBase(list);
        sent := sent + fetched;
        editingItem := None;
        showAddForm := false;
        formData := BLANK_FORM;
      }
      loading := false;
    }

    method HandleDelete(id: string, confirmed: bool, deleted: bool, list: Option<seq<Item>>) returns (sent: seq<Request>)
      modifies this
      ensures State() == DeleteStep(old(State()), id, confirmed, deleted, list).state
      ensures sent == DeleteStep(old(State()), id, confirmed, deleted, list).sent
    {
      if !confirmed {
        return [];
      }
      loading := true;
      sent := [DeleteItem(id)];
      if deleted {
        var fetched := FetchKnowledgeBase(list);
        sent := sent + fetched;
      }
      loading := false;
    }

    /** The pencil button: the item becomes the one being edited. */
    method StartEditing(item: Item)
      modifies this
      ensures State() == old(State()).(editingItem := Some(item))
    {
      editingItem := Some(item);
    }

    /** Cancel on an edit form. */
    method CancelEditing()
      modifies this
      ensures State() == old(State()).(editingItem := None)
    {
      editingItem := None;
    }

    /** The add button and the add form's Cancel. */
    method SetShowAddForm(show: bool)
      modifies this
      ensures State() == old(State()).(showAddForm := show)
    {
      showAddForm := show;
    }
  }
}
