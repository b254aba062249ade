/** The event record, as the delivery pipeline sees it. */
module Events {

  /** `id` is the document identifier, "" until one is assigned; `tag` stands for all other
      fields of the record, none of which delivery reads or writes. */
  datatype Event = Event(tag: nat, id: string)

  /** The zero value of the record. */
  const ZERO_EVENT := Event(0, "")

  function Tags(events: seq<Event>): (tags: seq<nat>)
    ensures |tags| == |events|
    ensures forall i :: 0 <= i < |events| ==> tags[i] == events[i].tag
  {
    seq(|events|, i requires 0 <= i < |events| => events[i].tag)
  }

  lemma TagsConcat(a: seq<Event>, b: seq<Event>)
    ensures Tags(a + b) == Tags(a) + Tags(b)
  {
  }
}
