/**
  The client of the Taiwan government calendar open data (src/app/utils/open_apis.py).

  `TaiwanCalendarApi` holds the endpoint and the query parameters; `GetCleanedList`
  turns the fetched calendar entries into the list of real holidays. The HTTP fetch
  itself (`get`) is not modelled: the entries it would return are a parameter.

  The specification of the cleaning step is the function `Cleaned`: keep the entries
  for which `Keep` holds, in input order, each reshaped by `Reshape`. The lemmas
  below state what that means entry by entry.
 */
module CalendarApi {
  import opened Wrappers
  import opened Enums

  /**
    The four keys of a calendar entry that the cleaning step reads; `None` stands
    for JSON `null`. Other keys of an entry are not modelled.
   */
  datatype RawEntry = RawEntry(
    date: Option<string>,
    name: Option<string>,
    holidaycategory: Option<string>,
    description: Option<string>)

  /** The `info` part of a cleaned entry. A kept entry always has a name. */
  datatype HolidayInfo = HolidayInfo(
    name: string,
    holidaycategory: Option<string>,
    description: Option<string>)

  /** A cleaned entry: `{date, info: {name, holidaycategory, description}}`. */
  datatype Holiday = Holiday(date: Option<string>, info: HolidayInfo)

  /**
    An entry is kept exactly when its name is present and the `IsNotHolidays`
    lookup of that name fails (the `ValueError` branch of the source).
   */
  predicate Keep(e: RawEntry) {
    e.name.Some? && IsNotHolidays.FromValue(e.name.value).None?
  }

  /** An entry is kept exactly when it has a name that is not one of the two designated labels. */
  lemma KeepLabels(e: RawEntry)
    ensures Keep(e) <==> e.name.Some? && e.name.value != "勞動節" && e.name.value != "軍人節"
  {
    if e.name.Some? {
      IsNotHolidaysLabels(e.name.value);
    }
  }

  /** The raw entry a cleaned entry was made from. */
  function Restore(h: Holiday): RawEntry {
    RawEntry(h.date, Some(h.info.name), h.info.holidaycategory, h.info.description)
  }

  /**
    The dictionary built for a kept entry. It copies the four fields unchanged:
    `Restore` gives them back.
   */
  function Reshape(e: RawEntry): (h: Holiday)
    requires e.name.Some?
    ensures Restore(h) == e
  {
    Holiday(e.date, HolidayInfo(e.name.value, e.holidaycategory, e.description))
  }

  /** The cleaned list: the kept entries, reshaped, in input order. */
  function Cleaned(entries: seq<RawEntry>): (r: seq<Holiday>)
    ensures |r| <= |entries|
    decreases |entries|
  {
    if entries == [] then []
    else (if Keep(entries[0]) then [Reshape(entries[0])] else []) + Cleaned(entries[1..])
  }

  /** The positions, from `lo` on, of the entries that are kept, in increasing order. */
  function KeptFrom(entries: seq<RawEntry>, lo: nat): seq<nat>
    requires lo <= |entries|
    decreases |entries| - lo
  {
    if lo == |entries| then []
    else (if Keep(entries[lo]) then [lo] else []) + KeptFrom(entries, lo + 1)
  }

  /** The positions of all kept entries. */
  function KeptIndices(entries: seq<RawEntry>): seq<nat> {
    KeptFrom(entries, 0)
  }

  /** Cleaning a concatenation cleans each part: entries are handled one at a time. */
  lemma {:induction false} CleanedAppend(a: seq<RawEntry>, b: seq<RawEntry>)
    ensures Cleaned(a + b) == Cleaned(a) + Cleaned(b)
    decreases |a|
  {
    if a == [] {
      assert a + b == b;
    } else {
      var head := if Keep(a[0]) then [Reshape(a[0])] else [];
      assert (a + b)[0] == a[0] && (a + b)[1..] == a[1..] + b;
      CleanedAppend(a[1..], b);
      calc {
        Cleaned(a + b);
        head + Cleaned(a[1..] + b);
        head + (Cleaned(a[1..]) + Cleaned(b));
        (head + Cleaned(a[1..])) + Cleaned(b);
      }
    }
  }

  /**
    `KeptFrom` lists exactly the kept positions at or after `lo`, each once, in
    strictly increasing order.
   */
  lemma {:induction false} KeptFromExact(entries: seq<RawEntry>, lo: nat)
    requires lo <= |entries|
    ensures forall k :: 0 <= k < |KeptFrom(entries, lo)| ==>
      lo <= KeptFrom(entries, lo)[k] < |entries| && Keep(entries[KeptFrom(entries, lo)[k]])
    ensures forall k, l :: 0 <= k < l < |KeptFrom(entries, lo)| ==>
      KeptFrom(entries, lo)[k] < KeptFrom(entries, lo)[l]
    ensures forall i :: lo <= i < |entries| && Keep(entries[i]) ==> i in KeptFrom(entries, lo)
    decreases |entries| - lo
  {
    if lo < |entries| {
      KeptFromExact(entries, lo + 1);
    }
  }

  /**
    The k-th cleaned entry is the reshaped entry at the k-th kept position: the
    output holds one entry per kept input entry, and in input order.
   */
  lemma {:induction false} CleanedAtKept(entries: seq<RawEntry>, lo: nat)
    requires lo <= |entries|
    ensures |Cleaned(entries[lo..])| == |KeptFrom(entries, lo)|
    ensures forall k :: 0 <= k < |KeptFrom(entries, lo)| ==>
      KeptFrom(entries, lo)[k] < |entries| && Keep(entries[KeptFrom(entries, lo)[k]]) &&
      Cleaned(entries[lo..])[k] == Reshape(entries[KeptFrom(entries, lo)[k]])
    decreases |entries| - lo
  {
    KeptFromExact(entries, lo);
    if lo < |entries| {
      CleanedAtKept(entries, lo + 1);
      assert entries[lo..][1..] == entries[lo + 1..];
    }
  }

  /**
    The cleaned list is the in-order image of the kept entries: its length is the
    number of kept entries, its k-th element is the k-th kept entry reshaped, the
    kept positions increase strictly, and every kept entry has its position there.
   */
  lemma CleanedIsKeptInOrder(entries: seq<RawEntry>)
    ensures |Cleaned(entries)| == |KeptIndices(entries)|
    ensures forall k :: 0 <= k < |KeptIndices(entries)| ==>
      KeptIndices(entries)[k] < |entries| && Keep(entries[KeptIndices(entries)[k]]) &&
      Cleaned(entries)[k] == Reshape(entries[KeptIndices(entries)[k]])
    ensures forall k, l :: 0 <= k < l < |KeptIndices(entries)| ==>
      KeptIndices(entries)[k] < KeptIndices(entries)[l]
    ensures forall i :: 0 <= i < |entries| && Keep(entries[i]) ==> i in KeptIndices(entries)
  {
    assert entries[0..] == entries;
    CleanedAtKept(entries, 0);
    KeptFromExact(entries, 0);
  }

  /** A holiday is in the cleaned list exactly when some kept entry reshapes to it. */
  lemma {:induction false} CleanedMembership(entries: seq<RawEntry>, h: Holiday)
    ensures h in Cleaned(entries) <==>
      exists i :: 0 <= i < |entries| && Keep(entries[i]) && Reshape(entries[i]) == h
    decreases |entries|
  {
    if entries != [] {
      CleanedMembership(entries[1..], h);
      if h in Cleaned(entries[1..]) {
        var i :| 0 <= i < |entries[1..]| && Keep(entries[1..][i]) && Reshape(entries[1..][i]) == h;
        assert Keep(entries[i + 1]) && Reshape(entries[i + 1]) == h;
      }
      if exists i :: 0 <= i < |entries| && Keep(entries[i]) && Reshape(entries[i]) == h {
        var i :| 0 <= i < |entries| && Keep(entries[i]) && Reshape(entries[i]) == h;
        if i > 0 {
          assert entries[1..][i - 1] == entries[i];
        }
      }
    }
  }

  /**
    No entry without a name and no entry named by a designated not-a-holiday label
    (Labour Day, Armed Forces Day) reaches the output: every output name fails the
    `IsNotHolidays` lookup and comes from a named input entry.
   */
  lemma CleanedDropsNonHolidays(entries: seq<RawEntry>, h: Holiday)
    requires h in Cleaned(entries)
    ensures IsNotHolidays.FromValue(h.info.name).None?
    ensures h.info.name != "勞動節" && h.info.name != "軍人節"
    ensures exists i :: 0 <= i < |entries| && entries[i].name == Some(h.info.name)
  {
    CleanedMembership(entries, h);
    var i :| 0 <= i < |entries| && Keep(entries[i]) && Reshape(entries[i]) == h;
    IsNotHolidaysLabels(h.info.name);
  }

  /** The cleaned list is as long as the input exactly when every entry is kept. */
  lemma {:induction false} CleanedFullLength(entries: seq<RawEntry>)
    ensures |Cleaned(entries)| == |entries| <==> forall i :: 0 <= i < |entries| ==> Keep(entries[i])
    decreases |entries|
  {
    if entries != [] {
      CleanedFullLength(entries[1..]);
      assert forall i :: 1 <= i < |entries| ==> entries[i] == entries[1..][i - 1];
    }
  }

  /** The client of the calendar open data. */
  class TaiwanCalendarApi {
    /** The dataset endpoint. */
    var url: string
    /** The response format (the source's spelling of "format"). */
    var formant: string
    /** The query parameters. */
    var params: map<string, int>

    /** Sets up the endpoint, the format and the query for `year`, `size` entries per page. */
    constructor (year: int, size: int := 1000, formant: string := "json")
      ensures url == OpenApis.TaiwanCalendarApi.ToString()
      ensures this.formant == formant
      ensures params.Keys == {"year", "size"} && params["year"] == year && params["size"] == size
    {
      url := OpenApis.TaiwanCalendarApi.ToString();
      this.formant := formant;
      params := map["year" := year, "size" := size];
    }

    /**
      `get_cleaned_list`, given the entries `json` that the fetch returned: the
      holidays among them, in input order.
     */
    method GetCleanedList(json: seq<RawEntry>) returns (list: seq<Holiday>)
      ensures list == Cleaned(json)
    {
      list := [];
      for i := 0 to |json|
        invariant list == Cleaned(json[..i])
      {
        var d := json[i];
        // the lookup raises ValueError: the name is present and is not a designated label
        var raised := false;
        if d.name.Some? {
          var member := IsNotHolidays.FromValue(d.name.value);
          raised := member.None?;
        }
        CleanedAppend(json[..i], [d]);
        assert json[..i + 1] == json[..i] + [d];
        if raised {
          var entry := Holiday(d.date, HolidayInfo(d.name.value, d.holidaycategory, d.description));
          list := list + [entry];
        }
      }
      assert json[..|json|] == json;
    }
  }
}
