/**
 * The stored form of one analytics event: an entity that holds values under
 * string keys, and the typed accessors the tracker and its workers read and
 * write it through.
 */
module AnalyticsEvents {

  /** A value held under one key of a stored entity. */
  datatype Value =
    | IntValue(number: int)
    | StringValue(text: string)
    | StringListValue(list: seq<string>)

  /** The attributes of one stored entity, by key. */
  type Entity = map<string, Value>

  const IdKey: string := "id"
  const BodyKey: string := "body"
  const DestinationsKey: string := "destinations"

  /** The three accessors use three different keys. */
  lemma KeysDistinct()
    ensures IdKey != BodyKey && IdKey != DestinationsKey && BodyKey != DestinationsKey
  {
  }

  /** A typed view of one stored entity; the setters write into the entity in place. */
  class AnalyticsEvent {
    var entity: Entity

    /** A new entity inserted into the store, with no attribute set yet. */
    constructor ()
      ensures entity == map[]
    {
      entity := map[];
    }

    /** A view of an entity that a fetch returned. */
    constructor Wrap(fetched: Entity)
      ensures entity == fetched
    {
      entity := fetched;
    }

    /** The id getter force-casts the stored value, so it needs an integer there. */
    predicate HasId()
      reads this
    {
      IdKey in entity && entity[IdKey].IntValue?
    }

    function Id(): int
      reads this
      requires HasId()
    {
      entity[IdKey].number
    }

    /** The body, or the empty string when it is unset or not a string. */
    function Body(): string
      reads this
    {
      if BodyKey in entity && entity[BodyKey].StringValue? then entity[BodyKey].text else ""
    }

    /** The destinations, or no destinations when they are unset or not a list of strings. */
    function Destinations(): seq<string>
      reads this
    {
      if DestinationsKey in entity && entity[DestinationsKey].StringListValue?
      then entity[DestinationsKey].list
      else []
    }

    method SetId(id: int)
      modifies this
      ensures entity == old(entity)[IdKey := IntValue(id)]
      ensures HasId() && Id() == id
      ensures Body() == old(Body()) && Destinations() == old(Destinations())
    {
      entity := entity[IdKey := IntValue(id)];
    }

    method SetBody(body: string)
      modifies this
      ensures entity == old(entity)[BodyKey := StringValue(body)]
      ensures Body() == body
      ensures HasId() == old(HasId()) && (HasId() ==> Id() == old(Id()))
      ensures Destinations() == old(Destinations())
    {
      entity := entity[BodyKey := StringValue(body)];
    }

    method SetDestinations(destinations: seq<string>)
      modifies this
      ensures entity == old(entity)[DestinationsKey := StringListValue(destinations)]
      ensures Destinations() == destinations
      ensures HasId() == old(HasId()) && (HasId() ==> Id() == old(Id()))
      ensures Body() == old(Body())
    {
      entity := entity[DestinationsKey := StringListValue(destinations)];
    }
  }

  /** Reading an attribute that was never set, or was set to a value of another type, gives the default. */
  lemma ReadDefaults(e: AnalyticsEvent)
    ensures !(BodyKey in e.entity && e.entity[BodyKey].StringValue?) ==> e.Body() == ""
    ensures !(DestinationsKey in e.entity && e.entity[DestinationsKey].StringListValue?) ==> e.Destinations() == []
    ensures e.entity == map[] ==> e.Body() == "" && e.Destinations() == [] && !e.HasId()
  {
  }
}
