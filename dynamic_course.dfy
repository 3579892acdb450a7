/** The course page: the page-name helper, the choice between the
    "create a course" view and the course view, the keys of the context
    cards, and the tri-state "include all weeks" checkbox over a list of
    week checkboxes. */
module DynamicCourse {
  import opened Common
  import opened JsText
  import UploadS3

  // `GetCurrentPageName` is `asPath.slice(1)`, that is JsText.SliceFrom1.

  /** The upload component's page name is the first segment of this one,
      and the whole of it when it has a single segment. */
  lemma UploadPageNameIsFirstSegment(asPath: string)
    ensures UploadS3.PageName(asPath) <= SliceFrom1(asPath)
    ensures '/' !in SliceFrom1(asPath) ==> UploadS3.PageName(asPath) == SliceFrom1(asPath)
  {
    if '/' !in SliceFrom1(asPath) {
      SplitWithoutSeparator(SliceFrom1(asPath), '/');
    }
  }

  // ---------------------------------------------------------------------
  // Which view the page renders

  /** The two views of `CourseMain`, with the page title and the course
      the upload dropzone is for. */
  datatype View =
    | CreateCourseView(pageTitle: string, uploadFor: string)
    | CourseView(pageTitle: string, uploadFor: string)

  /** `course_data` is the course row, or null when none was found. */
  function ViewFor<CourseData>(courseData: Option<CourseData>, courseName: string, asPath: string): (r: View)
    ensures r.CreateCourseView? <==> courseData.None?
    ensures r.pageTitle == SliceFrom1(asPath) && r.uploadFor == courseName
  {
    if courseData.None? then CreateCourseView(SliceFrom1(asPath), courseName)
    else CourseView(SliceFrom1(asPath), courseName)
  }

  // ---------------------------------------------------------------------
  // Context cards

  /** A context returned by the search; its `id` may be missing. */
  datatype Context = Context(id: Option<int>, sourceName: string, sourceLocation: string, text: string)

  /** `context.id || index`: a missing or zero id falls back to the index. */
  function CardKey(c: Context, index: nat): (r: int)
    ensures c.id.Some? && c.id.value != 0 ==> r == c.id.value
    ensures c.id.None? || c.id.value == 0 ==> r == index
  {
    if c.id.Some? && c.id.value != 0 then c.id.value else index
  }

  function CardKeys(contexts: seq<Context>): (r: seq<int>)
    ensures |r| == |contexts|
    ensures forall i :: 0 <= i < |contexts| ==> r[i] == CardKey(contexts[i], i)
  {
    seq(|contexts|, i requires 0 <= i < |contexts| => CardKey(contexts[i], i))
  }

  /** With no usable id at all, the keys are the indices, so they differ. */
  lemma KeysWithoutIdsAreDistinct(contexts: seq<Context>, i: nat, j: nat)
    requires forall k :: 0 <= k < |contexts| ==> contexts[k].id.None? || contexts[k].id == Some(0)
    requires i < j < |contexts|
    ensures CardKeys(contexts)[i] != CardKeys(contexts)[j]
  {
  }

  // ---------------------------------------------------------------------
  // The week checkboxes

  /** One week's checkbox. */
  datatype Item = Item(caption: string, checked: bool, key: string)

  /** `values.every((value) => value.checked)` */
  function AllChecked(items: seq<Item>): (r: bool)
    ensures r <==> forall i :: 0 <= i < |items| ==> items[i].checked
    decreases |items|
  {
    if items == [] then true else items[0].checked && AllChecked(items[1..])
  }

  /** `values.some((value) => value.checked)` */
  function SomeChecked(items: seq<Item>): (r: bool)
    ensures r <==> exists i :: 0 <= i < |items| && items[i].checked
    decreases |items|
  {
    if items == [] then false else items[0].checked || SomeChecked(items[1..])
  }

  /** Some items checked and some not; never together with `AllChecked`. */
  function Indeterminate(items: seq<Item>): (r: bool)
    ensures r <==> (exists i :: 0 <= i < |items| && items[i].checked) &&
                   (exists i :: 0 <= i < |items| && !items[i].checked)
    ensures r ==> !AllChecked(items)
  {
    SomeChecked(items) && !AllChecked(items)
  }

  /** Every item with its `checked` flag set to `c`, all else kept. */
  function WithAllChecked(items: seq<Item>, c: bool): (r: seq<Item>)
    ensures |r| == |items|
    ensures forall i :: 0 <= i < |r| ==> r[i] == items[i].(checked := c)
  {
    seq(|items|, i requires 0 <= i < |items| => items[i].(checked := c))
  }

  /** After the master toggle the list is uniform: all checked when not
      all were, none checked when all were; never indeterminate. */
  lemma ToggleAllIsUniform(items: seq<Item>)
    ensures var r := WithAllChecked(items, !AllChecked(items));
      !Indeterminate(r) &&
      (AllChecked(items) ==> !SomeChecked(r)) &&
      (!AllChecked(items) ==> AllChecked(r))
  {
    var r := WithAllChecked(items, !AllChecked(items));
    if AllChecked(items) {
      assert forall i :: 0 <= i < |r| ==> !r[i].checked;
    } else {
      assert forall i :: 0 <= i < |r| ==> r[i].checked;
    }
  }

  /** The three weeks the checkbox list starts with; keys are random ids. */
  function InitialValues(key1: string, key2: string, key3: string): seq<Item> {
    [ Item("Week 1: Finite State Machines", true, key1),
      Item("Week 2: Circuit Diagrams", true, key2),
      Item("Week 3: LC-3 ISA", true, key3) ]
  }

  lemma InitiallyAllChecked(key1: string, key2: string, key3: string)
    ensures AllChecked(InitialValues(key1, key2, key3))
    ensures !Indeterminate(InitialValues(key1, key2, key3))
  {
  }

  /** The list state behind `IndeterminateCheckbox`. */
  class CheckboxList {
    var values: seq<Item>

    constructor (key1: string, key2: string, key3: string)
      ensures values == InitialValues(key1, key2, key3)
    {
      values := InitialValues(key1, key2, key3);
    }

    /** The master checkbox's `checked`. */
    function Checked(): bool
      reads this
    {
      AllChecked(values)
    }

    /** The master checkbox's `indeterminate`. */
    function IsIndeterminate(): bool
      reads this
    {
      Indeterminate(values)
    }

    /** The master checkbox's `onChange`: every item to `!allChecked`. */
    method ToggleAll()
      modifies this
      ensures values == WithAllChecked(old(values), !AllChecked(old(values)))
      ensures !IsIndeterminate()
      ensures Checked() <==> !AllChecked(old(values)) || old(values) == []
    {
      ToggleAllIsUniform(values);
      values := WithAllChecked(values, !AllChecked(values));
    }

    /** An item's `onChange`: `setItemProp(index, 'checked', checked)`;
        an index past the end changes nothing. */
    method SetItemChecked(index: nat, checked: bool)
      modifies this
      ensures |values| == |old(values)|
      ensures index < |values| ==> values[index] == old(values)[index].(checked := checked)
      ensures forall i :: 0 <= i < |values| && i != index ==> values[i] == old(values)[i]
    {
      if index < |values| {
        values := values[index := values[index].(checked := checked)];
      }
    }
  }
}
