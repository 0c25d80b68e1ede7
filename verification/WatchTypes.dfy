/** Watch events and the metadata they carry, as the notifiers see them. */
module WatchTypes {
  import opened Selectors

  /** `Previous` is the notifiers' internal type; the API server has the others. */
  datatype EventType = Added | Modified | Deleted | Bookmark | Previous | OtherType(name: string)

  /** The type of the server's error events. */
  const ERROR_TYPE := OtherType("ERROR")

  datatype Key = Key(namespace: string, name: string)

  datatype Resource = Resource(key: Key, version: string, generation: int, labels: Labels, annotations: Labels)

  datatype Event = Event(typ: EventType, obj: Resource)

  datatype Filter = Filter(labels: Labels, annotations: Labels, watchBookmark: bool)

  /** `acceptMeta` */
  predicate AcceptMeta(obj: Resource, f: Filter) {
    Selects(f.labels, obj.labels) && Selects(f.annotations, obj.annotations)
  }
}
