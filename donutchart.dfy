/** The statistics chart of twidder/static/js/donutchart.js: the server's
    statistics object becomes a list of labelled, coloured entries, which
    are added to or written into the chart's segment list. The chart
    itself is reduced to that segment list. */
module DonutChart {
  import opened JsValues

  const Colors: seq<string> := ["#09355C", "#CBCBCB", "#B61B12"]

  /** The human names of the known statistics. */
  const Names: map<string, string> := map[
    "nb_connected_users" := "Number of connected user",
    "nb_posts" := "Number of posts",
    "nb_views" := "Number of views"
  ]

  /** A label: text, or the inherited `Object.prototype` member the name
      lookup found (a function, compared by identity). */
  datatype Label = LabelText(text: string) | LabelMember(member: string)

  datatype Entry = Entry(caption: Label, color: string, value: Value)

  datatype Segment = Segment(caption: Label, value: Value, color: string)

  /** `findName(name)`: the human name of a known statistic, otherwise the
      key itself, except for the names of inherited members, which the
      literal's lookup finds first. */
  function FindName(name: string): (r: Label)
    ensures name in Names ==> r == LabelText(Names[name])
    ensures name !in Names && name !in ObjectPrototypeMembers ==> r == LabelText(name)
    ensures name !in Names && name in ObjectPrototypeMembers ==> r == LabelMember(name)
  {
    match ReadLiteral(Names, name)
    case Own(text) => LabelText(text)
    case Inherited(member) => LabelMember(member)
    case Missing => LabelText(name)
  }

  /** The entry `convertData` builds for the key at position `index`. */
  function EntryAt(props: seq<(string, Value)>, index: nat): (e: Entry)
    requires index < |props|
    ensures e.value == props[index].1 && e.color == Colors[index % 3]
    ensures e.caption == FindName(props[index].0)
  {
    Entry(FindName(props[index].0), Colors[index % 3], props[index].1)
  }

  predicate DistinctKeys(props: seq<(string, Value)>) {
    forall i, j :: 0 <= i < j < |props| ==> props[i].0 != props[j].0
  }

  /** `convertData(data)`, where `props` are the object's own properties
      in `Object.keys` order. The `hasOwnProperty` filter keeps every own
      key, but an own property named "hasOwnProperty" shadows the method
      and the filter throws (None). */
  method ConvertData(props: seq<(string, Value)>) returns (r: Option<seq<Entry>>)
    requires DistinctKeys(props)
    ensures r.None? <==> exists i :: 0 <= i < |props| && props[i].0 == "hasOwnProperty"
    ensures r.Some? ==> |r.value| == |props|
    ensures r.Some? ==> forall i :: 0 <= i < |props| ==> r.value[i] == EntryAt(props, i)
  {
    var k := 0;
    while k < |props|
      invariant 0 <= k <= |props|
      invariant forall i :: 0 <= i < k ==> props[i].0 != "hasOwnProperty"
    {
      if props[k].0 == "hasOwnProperty" {
        return None;
      }
      k := k + 1;
    }
    var chartData: seq<Entry> := [];
    var index := 0;
    while index < |props|
      invariant 0 <= index <= |props| && |chartData| == index
      invariant forall i :: 0 <= i < index ==> chartData[i] == EntryAt(props, i)
    {
      chartData := chartData + [Entry(FindName(props[index].0), Colors[index % 3], props[index].1)];
      index := index + 1;
    }
    r := Some(chartData);
  }

  /** Known statistics get their human names, colours cycle through the
      three colours, and each value is carried over unchanged. */
  lemma ConvertedEntries(props: seq<(string, Value)>, i: nat)
    requires i < |props|
    ensures props[i].0 == "nb_connected_users" ==> EntryAt(props, i).caption == LabelText("Number of connected user")
    ensures props[i].0 == "nb_posts" ==> EntryAt(props, i).caption == LabelText("Number of posts")
    ensures props[i].0 == "nb_views" ==> EntryAt(props, i).caption == LabelText("Number of views")
    ensures i + 3 < |props| ==> EntryAt(props, i).color == EntryAt(props, i + 3).color
    ensures EntryAt(props, i).value == props[i].1
  {
  }

  function Labels(segments: seq<Segment>): (r: seq<Label>)
    ensures |r| == |segments| && forall i :: 0 <= i < |segments| ==> r[i] == segments[i].caption
  {
    seq(|segments|, i requires 0 <= i < |segments| => segments[i].caption)
  }

  datatype Update = Update(segments: seq<Segment>, threw: bool)

  /** The add-or-update rule from entry `from` on: an entry whose label is
      not among the labels the chart had before the update is added as a
      new segment; otherwise the value of the segment at the entry's own
      position is overwritten, and when there is no segment there the
      write throws and the remaining entries are not applied. */
  function Apply(snapshot: seq<Label>, segments: seq<Segment>, entries: seq<Entry>, from: nat): (u: Update)
    requires from <= |entries|
    decreases |entries| - from
  {
    if from == |entries| then Update(segments, false)
    else
      var d := entries[from];
      if d.caption !in snapshot then
        Apply(snapshot, segments + [Segment(d.caption, d.value, d.color)], entries, from + 1)
      else if from < |segments| then
        Apply(snapshot, segments[from := segments[from].(value := d.value)], entries, from + 1)
      else Update(segments, true)
  }

  class Chart {
    var segments: seq<Segment>

    constructor ()
      ensures segments == []
    {
      segments := [];
    }

    /** `updateChart` on converted entries (after `clear`, which only
        clears the canvas): returns whether a write threw. */
    method UpdateChart(entries: seq<Entry>) returns (threw: bool)
      modifies this
      ensures Update(segments, threw) == Apply(Labels(old(segments)), old(segments), entries, 0)
    {
      var chartLabels := Labels(segments);
      var index := 0;
      while index < |entries|
        invariant 0 <= index <= |entries|
        invariant Apply(chartLabels, old(segments), entries, 0) == Apply(chartLabels, segments, entries, index)
      {
        var d := entries[index];
        if d.caption !in chartLabels {
          segments := segments + [Segment(d.caption, d.value, d.color)];
        } else if index < |segments| {
          segments := segments[index := segments[index].(value := d.value)];
        } else {
          return true;
        }
        index := index + 1;
      }
      threw := false;
    }
  }

  /** Segments are never removed or relabelled: the old segments keep
      their labels and colours and stay in front. */
  lemma {:induction false} ApplyKeepsSegments(snapshot: seq<Label>, segments: seq<Segment>, entries: seq<Entry>, from: nat)
    requires from <= |entries|
    ensures var u := Apply(snapshot, segments, entries, from);
      |u.segments| >= |segments|
      && forall i :: 0 <= i < |segments| ==>
           u.segments[i].caption == segments[i].caption && u.segments[i].color == segments[i].color
    decreases |entries| - from
  {
    if from < |entries| {
      var d := entries[from];
      if d.caption !in snapshot {
        ApplyKeepsSegments(snapshot, segments + [Segment(d.caption, d.value, d.color)], entries, from + 1);
      } else if from < |segments| {
        ApplyKeepsSegments(snapshot, segments[from := segments[from].(value := d.value)], entries, from + 1);
      }
    }
  }

  /** After an update that did not throw, every entry's label is the
      label of some segment. */
  lemma {:induction false} ApplyCoversLabels(snapshot: seq<Label>, segments: seq<Segment>, entries: seq<Entry>, from: nat)
    requires from <= |entries|
    requires forall l :: l in snapshot ==> l in Labels(segments)
    ensures var u := Apply(snapshot, segments, entries, from);
      !u.threw ==> forall i :: from <= i < |entries| ==> entries[i].caption in Labels(u.segments)
    decreases |entries| - from
  {
    if from < |entries| {
      var d := entries[from];
      var next := if d.caption !in snapshot then segments + [Segment(d.caption, d.value, d.color)]
                  else if from < |segments| then segments[from := segments[from].(value := d.value)]
                  else segments;
      if d.caption !in snapshot || from < |segments| {
        CaptionsKept(segments, next);
        assert d.caption in Labels(next) by {
          if d.caption !in snapshot {
            assert Labels(next)[|segments|] == d.caption;
          }
        }
        ApplyCoversLabels(snapshot, next, entries, from + 1);
        ApplyKeepsSegments(snapshot, next, entries, from + 1);
        CaptionsKept(next, Apply(snapshot, next, entries, from + 1).segments);
      }
    }
  }

  /** Segments that keep their captions keep their labels. */
  lemma CaptionsKept(before: seq<Segment>, after: seq<Segment>)
    requires |after| >= |before|
    requires forall i :: 0 <= i < |before| ==> after[i].caption == before[i].caption
    ensures forall l :: l in Labels(before) ==> l in Labels(after)
  {
    forall l | l in Labels(before) ensures l in Labels(after) {
      var k :| 0 <= k < |before| && Labels(before)[k] == l;
      assert Labels(after)[k] == l;
    }
  }

  /** When the entries carry the segments' labels in the same order, the
      update writes each value into the segment with that label and adds
      nothing. */
  lemma {:induction false} SameLabelsUpdateInPlace(segments: seq<Segment>, entries: seq<Entry>, from: nat, current: seq<Segment>)
    requires |entries| == |segments| == |current| && from <= |entries|
    requires forall i :: 0 <= i < |entries| ==> entries[i].caption == segments[i].caption
    requires forall i :: 0 <= i < from ==> current[i] == segments[i].(value := entries[i].value)
    requires forall i :: from <= i < |current| ==> current[i] == segments[i]
    ensures var u := Apply(Labels(segments), current, entries, from);
      !u.threw && |u.segments| == |segments|
      && forall i :: 0 <= i < |segments| ==> u.segments[i] == segments[i].(value := entries[i].value)
    decreases |entries| - from
  {
    if from < |entries| {
      assert entries[from].caption == Labels(segments)[from];
      SameLabelsUpdateInPlace(segments, entries, from + 1, current[from := current[from].(value := entries[from].value)]);
    }
  }

  /** The write goes to the entry's position, not to the segment carrying
      its label: a chart with segments labelled "a" then "b" updated with
      the single entry "b" overwrites the value of segment "a". */
  lemma OverwriteFollowsPosition()
    ensures var a := Segment(LabelText("a"), Num(1), Colors[0]);
      var b := Segment(LabelText("b"), Num(2), Colors[1]);
      var u := Apply([LabelText("a"), LabelText("b")], [a, b], [Entry(LabelText("b"), Colors[0], Num(7))], 0);
      u == Update([a.(value := Num(7)), b], false)
  {
  }
}
