/**
 * The dataset control: on every update it clears its container and renders one
 * `div > label` per row of the bound dataset, in the dataset's row order, the
 * label showing the row's formatted value for the column named by the
 * `typeAttribute` property.
 */
module DatasetControl {
  import opened Host
  import opened Dom

  /** A column descriptor; only its name is used. */
  datatype Column = Column(name: string)

  /** A row: `getRecordId()` and `getFormattedValue(name)` for the dataset's columns. */
  datatype DataRecord = DataRecord(recordId: string, formattedValues: map<string, string>)

  /** The bound dataset `myDataSet`. */
  datatype DataSet = DataSet(
    loading: bool,
    columns: seq<Column>,
    sortedRecordIds: seq<string>,
    records: map<string, DataRecord>)

  /** A projected row: the plain object `_items` builds, from property name to string. */
  type Item = map<string, string>

  function ColumnNames(columns: seq<Column>): set<string>
  {
    set c | c in columns :: c.name
  }

  /**
   * What the host guarantees once the dataset has loaded: every id in
   * `sortedRecordIds` has a record, and every record has a formatted value for
   * every column.
   */
  predicate HostProvides(ds: DataSet, columns: seq<Column>)
  {
    (forall id :: id in ds.sortedRecordIds ==> id in ds.records) &&
    (forall id :: id in ds.records ==> ColumnNames(columns) <= ds.records[id].formattedValues.Keys)
  }

  /** `item[name]` in JavaScript: the field's value, or `undefined` (None) when there is none. */
  function Lookup(item: Item, name: string): Option<string>
  {
    if name in item then Some(item[name]) else None
  }

  /** The object after the column loop has run over `columns`, starting from `base`. */
  function SetColumns(base: Item, r: DataRecord, columns: seq<Column>): (item: Item)
    requires ColumnNames(columns) <= r.formattedValues.Keys
    ensures item.Keys == base.Keys + ColumnNames(columns)
  {
    if columns == [] then base
    else
      var c := columns[|columns| - 1];
      assert columns == columns[..|columns| - 1] + [c];
      assert ColumnNames(columns) == ColumnNames(columns[..|columns| - 1]) + {c.name};
      SetColumns(base, r, columns[..|columns| - 1])[c.name := r.formattedValues[c.name]]
  }

  /** The object `_items` builds for one record: `{key: recordId}` and then one field per column. */
  function Project(r: DataRecord, columns: seq<Column>): (item: Item)
    requires ColumnNames(columns) <= r.formattedValues.Keys
    ensures item.Keys == {"key"} + ColumnNames(columns)
  {
    SetColumns(map["key" := r.recordId], r, columns)
  }

  /** What `_items(ds, columns)` returns: one projected row per id of `sortedRecordIds`, in order. */
  function ItemsOf(ds: DataSet, columns: seq<Column>): (items: seq<Item>)
    requires HostProvides(ds, columns)
    ensures |items| == |ds.sortedRecordIds|
  {
    seq(|ds.sortedRecordIds|, i requires 0 <= i < |ds.sortedRecordIds| =>
      Project(ds.records[ds.sortedRecordIds[i]], columns))
  }

  /** The label texts a non-loading update renders, one per row, in row order. */
  function LabelTexts(ds: DataSet, typeAttribute: string): (texts: seq<Option<string>>)
    requires HostProvides(ds, ds.columns)
    ensures |texts| == |ds.sortedRecordIds|
  {
    var items := ItemsOf(ds, ds.columns);
    seq(|items|, i requires 0 <= i < |items| => Lookup(items[i], typeAttribute))
  }

  /** `d` is a `div` whose only child is a childless `label` showing `text`. */
  predicate LabelDiv(d: Node, text: Option<string>)
    reads d, d.children
  {
    d.kind == Element("div") && |d.children| == 1 &&
    d.children[0].kind == Element("label") &&
    d.children[0].children == [] && d.children[0].text == text
  }

  /** Looking a name up after the column loop: a column's value wins over the starting object. */
  lemma {:induction false} SetColumnsLookup(base: Item, r: DataRecord, columns: seq<Column>, name: string)
    requires ColumnNames(columns) <= r.formattedValues.Keys
    ensures Lookup(SetColumns(base, r, columns), name) ==
      if name in ColumnNames(columns) then Some(r.formattedValues[name]) else Lookup(base, name)
  {
    if columns != [] {
      var init := columns[..|columns| - 1];
      var c := columns[|columns| - 1];
      assert columns == init + [c];
      assert ColumnNames(columns) == ColumnNames(init) + {c.name};
      SetColumnsLookup(base, r, init, name);
    }
  }

  /**
   * A projected row answers a column name with that column's formatted value,
   * `"key"` (when no column is so named) with the record id, and any other
   * name with `undefined`.
   */
  lemma ProjectLookup(r: DataRecord, columns: seq<Column>, name: string)
    requires ColumnNames(columns) <= r.formattedValues.Keys
    ensures Lookup(Project(r, columns), name) ==
      if name in ColumnNames(columns) then Some(r.formattedValues[name])
      else if name == "key" then Some(r.recordId)
      else None
  {
    SetColumnsLookup(map["key" := r.recordId], r, columns, name);
  }

  /**
   * The i-th rendered label shows the formatted value of the selected column
   * for the i-th id of `sortedRecordIds`; a name that is not a column shows
   * `undefined`, except `"key"`, which shows the record id.
   */
  lemma LabelTextAt(ds: DataSet, typeAttribute: string, i: nat)
    requires HostProvides(ds, ds.columns) && i < |ds.sortedRecordIds|
    ensures var r := ds.records[ds.sortedRecordIds[i]];
      LabelTexts(ds, typeAttribute)[i] ==
        if typeAttribute in ColumnNames(ds.columns) then Some(r.formattedValues[typeAttribute])
        else if typeAttribute == "key" then Some(r.recordId)
        else None
  {
    ProjectLookup(ds.records[ds.sortedRecordIds[i]], ds.columns, typeAttribute);
  }

  /** The callback `_items` maps over the ids: `{key: recordId}`, then one field per column. */
  method NewRecord(record: DataRecord, columns: seq<Column>) returns (newRecord: Item)
    requires ColumnNames(columns) <= record.formattedValues.Keys
    ensures newRecord == Project(record, columns)
  {
    newRecord := map["key" := record.recordId];
    for j := 0 to |columns|
      invariant ColumnNames(columns[..j]) <= record.formattedValues.Keys
      invariant newRecord == SetColumns(map["key" := record.recordId], record, columns[..j])
    {
      var column := columns[j];
      assert columns[..j + 1] == columns[..j] + [column];
      newRecord := newRecord[column.name := record.formattedValues[column.name]];
    }
    assert columns[..|columns|] == columns;
  }

  /** `_items`: the map over `sortedRecordIds`, one projected row per id. */
  method Items(ds: DataSet, columns: seq<Column>) returns (items: seq<Item>)
    requires HostProvides(ds, columns)
    ensures items == ItemsOf(ds, columns)
  {
    items := [];
    for i := 0 to |ds.sortedRecordIds|
      invariant items == ItemsOf(ds, columns)[..i]
    {
      var key := ds.sortedRecordIds[i];
      var newRecord := NewRecord(ds.records[key], columns);
      items := items + [newRecord];
    }
  }

  class MyDatasetControl {
    /** The div the host hands to `init`. */
    const theContainer: Node
    /** The most recently created wrapper div and label (undefined before the first render). */
    var mainContainer: Node?
    var myLabel: Node?

    /** The empty TypeScript constructor followed by `init`: only the container is stored. */
    constructor Init(container: Node)
      ensures theContainer == container
      ensures mainContainer == null && myLabel == null
      ensures unchanged(container)
    {
      theContainer := container;
      mainContainer := null;
      myLabel := null;
    }

    /** `getOutputs`: the control declares no outputs. */
    function GetOutputs(): (outputs: map<string, string>)
      ensures outputs == map[]
    {
      map[]
    }

    /** The removal loop: take away `lastElementChild` until there is none. */
    method ClearElements()
      modifies theContainer
      ensures theContainer.children == NonElements(old(theContainer.children))
      ensures theContainer.text == old(theContainer.text)
      ensures (forall n :: n in old(theContainer.children) ==> n.kind.Element?) ==> theContainer.children == []
    {
      if forall n :: n in theContainer.children ==> n.kind.Element? {
        AllElementsNoNonElements(theContainer.children);
      }
      var child := theContainer.LastElementChild();
      while child != null
        invariant NonElements(theContainer.children) == NonElements(old(theContainer.children))
        invariant child == theContainer.LastElementChild()
        invariant theContainer.text == old(theContainer.text)
        decreases |theContainer.children|
      {
        WithoutKeepsNonElements(theContainer.children, child);
        theContainer.RemoveChild(child);
        child := theContainer.LastElementChild();
      }
    }

    /** The `forEach` over the projected rows: one `div > label` appended per row, in order. */
    method AppendLabels(records: seq<Item>, typeAttribute: string)
      modifies this, theContainer
      ensures |theContainer.children| == |old(theContainer.children)| + |records|
      ensures theContainer.children[..|old(theContainer.children)|] == old(theContainer.children)
      ensures var added := theContainer.children[|old(theContainer.children)|..];
        (forall i :: 0 <= i < |records| ==> LabelDiv(added[i], Lookup(records[i], typeAttribute))) &&
        (forall i :: 0 <= i < |records| ==> fresh(added[i]) && fresh(added[i].children[0])) &&
        (records != [] ==> mainContainer == added[|records| - 1] && myLabel == mainContainer.children[0])
      ensures records == [] ==> mainContainer == old(mainContainer) && myLabel == old(myLabel)
      ensures (forall n :: n in old(theContainer.children) ==> n.kind.Element?) ==>
        forall n :: n in theContainer.children ==> n.kind.Element?
    {
      ghost var kept := theContainer.children;
      ghost var added: seq<Node> := [];
      for i := 0 to |records|
        invariant theContainer.children == kept + added
        invariant |added| == i
        invariant forall k :: 0 <= k < i ==> LabelDiv(added[k], Lookup(records[k], typeAttribute))
        invariant forall k :: 0 <= k < i ==> fresh(added[k]) && fresh(added[k].children[0])
        invariant forall n :: n in added ==> n.kind == Element("div")
        invariant i > 0 ==> mainContainer == added[i - 1] && myLabel == mainContainer.children[0]
        invariant i == 0 ==> mainContainer == old(mainContainer) && myLabel == old(myLabel)
      {
        var div := new Node.CreateElement("div");
        mainContainer := div;
        var lbl := new Node.CreateElement("label");
        myLabel := lbl;
        lbl.text := Lookup(records[i], typeAttribute);
        div.AppendChild(lbl);
        theContainer.AppendChild(div);
        added := added + [div];
      }
      assert theContainer.children[|kept|..] == added;
    }

    /**
     * `updateView`: nothing happens while the dataset is loading; otherwise the
     * container's element children are removed and one `div > label` per row is
     * appended, in row order.
     */
    method UpdateView(ds: DataSet, typeAttributeRaw: Option<string>)
      requires !ds.loading ==> HostProvides(ds, ds.columns)
      modifies this, theContainer
      ensures ds.loading ==> unchanged(this) && unchanged(theContainer)
      ensures !ds.loading ==>
        |theContainer.children| == |NonElements(old(theContainer.children))| + |ds.sortedRecordIds|
      ensures !ds.loading ==>
        var kept := NonElements(old(theContainer.children));
        var texts := LabelTexts(ds, OrEmpty(typeAttributeRaw));
        var added := theContainer.children[|kept|..];
        theContainer.children[..|kept|] == kept &&
        (forall i :: 0 <= i < |texts| ==> LabelDiv(added[i], texts[i])) &&
        (forall i :: 0 <= i < |texts| ==> fresh(added[i]) && fresh(added[i].children[0])) &&
        (texts != [] ==> mainContainer == added[|texts| - 1] && myLabel == mainContainer.children[0]) &&
        (texts == [] ==> mainContainer == old(mainContainer) && myLabel == old(myLabel))
      ensures !ds.loading ==>
        forall n :: n in old(theContainer.children) && n.kind.Element? ==> n !in theContainer.children
      ensures !ds.loading && (forall n :: n in old(theContainer.children) ==> n.kind.Element?) ==>
        |theContainer.children| == |ds.sortedRecordIds| &&
        forall n :: n in theContainer.children ==> n.kind.Element?
    {
      if ds.loading {
        return;
      }
      ClearElements();
      var typeAttribute := OrEmpty(typeAttributeRaw);
      var records := Items(ds, ds.columns);
      AppendLabels(records, typeAttribute);
    }
  }
}
