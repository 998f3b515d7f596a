/** The conversion of Google Calendar items into FullCalendar event
    records: an order-preserving map, one event per item. */
module ItemMapper {
  import opened Wrappers
  import opened JsValues

  /** The `start` or `end` object of a Google Calendar item: a date-only
      value (`date`), a date-time value (`dateTime`), either, both or neither. */
  datatype EventTime = EventTime(date: Option<string>, dateTime: Option<string>)

  /** A raw item of the upstream `items` array; every field may be absent. */
  datatype RawItem = RawItem(
    id: Option<string>,
    summary: Option<string>,
    description: Option<string>,
    location: Option<string>,
    start: Option<EventTime>,
    end: Option<EventTime>,
    htmlLink: Option<string>)

  /** The event record handed to FullCalendar; a `None` field is absent or
      null: `undefined` is dropped from the JSON body, while a `null` from the
      upstream item (an `id`, or a `date` reaching `start`/`end`) is kept. */
  datatype Event = Event(
    id: Option<string>,
    title: string,
    start: Option<string>,
    end: Option<string>,
    location: Option<string>,
    url: Option<string>,
    description: string,
    allDay: bool)

  const Placeholder: string := "Untitled"
  const DescriptionLimit: nat := 1000

  /** `t?.dateTime` */
  function DateTimeOf(t: Option<EventTime>): Option<string> {
    if t.Some? then t.value.dateTime else None
  }

  /** `t?.date` */
  function DateOf(t: Option<EventTime>): Option<string> {
    if t.Some? then t.value.date else None
  }

  /** The raw description, or "" when it is absent, before truncation. */
  function RawDescription(item: RawItem): string {
    OrElse(item.description, "")
  }

  /** One element of the `.map` over `data.items`. */
  function MapItem(item: RawItem): (e: Event)
    // identity and link
    ensures e.id == item.id
    ensures e.url.Some? <==> Truthy(item.htmlLink)
    ensures e.url.Some? ==> e.url == item.htmlLink
    // title: the summary when non-empty, else the placeholder; never empty
    ensures e.title != ""
    ensures Truthy(item.summary) ==> e.title == item.summary.value
    ensures !Truthy(item.summary) ==> e.title == Placeholder
    // start and end: dateTime wins over date, each bound on its own
    ensures Truthy(DateTimeOf(item.start)) ==> e.start == DateTimeOf(item.start)
    ensures !Truthy(DateTimeOf(item.start)) ==> e.start == DateOf(item.start)
    ensures Truthy(DateTimeOf(item.end)) ==> e.end == DateTimeOf(item.end)
    ensures !Truthy(DateTimeOf(item.end)) ==> e.end == DateOf(item.end)
    // all-day classification, and the start an all-day event then carries
    ensures e.allDay <==> Truthy(DateOf(item.start)) && !Truthy(DateTimeOf(item.start))
    ensures e.allDay ==> Truthy(e.start) && e.start == DateOf(item.start)
    // location: empty or absent collapses to absent
    ensures e.location.Some? <==> Truthy(item.location)
    ensures e.location.Some? ==> e.location == item.location
    // description: a prefix of the raw one, at most 1000 characters
    ensures |e.description| <= DescriptionLimit
    ensures e.description <= RawDescription(item)
    ensures |RawDescription(item)| <= DescriptionLimit ==> e.description == RawDescription(item)
    ensures DescriptionLimit < |RawDescription(item)| ==> |e.description| == DescriptionLimit
  {
    Event(
      id := item.id,
      title := OrElse(item.summary, Placeholder),
      start := Or(DateTimeOf(item.start), DateOf(item.start)),
      end := Or(DateTimeOf(item.end), DateOf(item.end)),
      location := Or(item.location, None),
      url := Or(item.htmlLink, None),
      description := SlicePrefix(RawDescription(item), DescriptionLimit),
      allDay := Truthy(DateOf(item.start)) && !Truthy(DateTimeOf(item.start)))
  }

  /** `items.map(MapItem)`: one event per item, in the items' order. */
  function MapItems(items: seq<RawItem>): (events: seq<Event>)
    ensures |events| == |items|
    ensures forall i :: 0 <= i < |items| ==> events[i] == MapItem(items[i])
  {
    if items == [] then [] else [MapItem(items[0])] + MapItems(items[1..])
  }

  /** Mapping distributes over concatenation: no event depends on its
      neighbours or on its position. */
  lemma MapItemsAppend(a: seq<RawItem>, b: seq<RawItem>)
    ensures MapItems(a + b) == MapItems(a) + MapItems(b)
  {
  }

  /** Every event of a mapped list has a title and a bounded description. */
  lemma MappedEventsWellFormed(items: seq<RawItem>)
    ensures forall e | e in MapItems(items) :: e.title != "" && |e.description| <= DescriptionLimit
  {
  }
}
