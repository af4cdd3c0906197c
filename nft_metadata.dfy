/**
 * The NFT metadata document the server issues for an event ticket, and the
 * generator that builds it from a ticket id, a ticket type and a CCM count.
 */
module NftMetadata {
  import opened Wrappers
  import opened JsValues

  /** One trait of the record: a `{trait_type, value}` pair. */
  datatype Attribute = Attribute(traitType: string, value: string)

  /** The metadata record; `externalUrl` is the JSON field `external_url`. */
  datatype Metadata = Metadata(
    description: string,
    externalUrl: string,
    image: string,
    name: string,
    attributes: seq<Attribute>)

  const Description: string :=
    "Ceylon Crypto Meetup - Yacht Party 2024: where Sri Lanka's crypto community meets, innovates, and celebrates amidst the anticipation of the 2024 halving event"
  const ExternalUrl: string := "https://ceylabs.io/"
  const ImageBase: string := "https://api.pudgypenguins.io/lil/image/"
  const NamePrefix: string := "Ticket #"

  /** The trait names of every record, in the order the generator appends them. */
  const TraitOrder: seq<string> := [
    "Event ID", "Event Type", "Location", "Participation",
    "Ticket ID", "Ticket Type", "CCM Count", "Block Height"]

  /** The record for a ticket; every input is rendered with `${x}`. */
  function Generate(id: JsValue, ticketType: JsValue, ccmCount: JsValue): (m: Metadata)
  {
    Metadata(
      Description,
      ExternalUrl,
      ImageBase + ToText(id),
      NamePrefix + ToText(id),
      [ Attribute("Event ID", "2"),
        Attribute("Event Type", "IRL"),
        Attribute("Location", "Somewhere in the sea on a yacht"),
        Attribute("Participation", "In-Person"),
        Attribute("Ticket ID", ToText(id)),
        Attribute("Ticket Type", ToText(ticketType)),
        Attribute("CCM Count", ToText(ccmCount)),
        Attribute("Block Height", "840,000") ])
  }

  /** The trait names of a list of attributes, in order. */
  function TraitTypes(attrs: seq<Attribute>): (names: seq<string>)
    decreases |attrs|
  {
    if attrs == [] then [] else [attrs[0].traitType] + TraitTypes(attrs[1..])
  }

  /** The value of the first attribute with the given trait name, as a marketplace reads it. */
  function TraitValue(attrs: seq<Attribute>, traitType: string): (r: Option<string>)
    decreases |attrs|
  {
    if attrs == [] then None
    else if attrs[0].traitType == traitType then Some(attrs[0].value)
    else TraitValue(attrs[1..], traitType)
  }

  lemma {:induction false} TraitTypesLength(attrs: seq<Attribute>)
    ensures |TraitTypes(attrs)| == |attrs|
    decreases |attrs|
  {
    if attrs != [] {
      TraitTypesLength(attrs[1..]);
    }
  }

  lemma {:induction false} TraitTypesAt(attrs: seq<Attribute>, k: nat)
    requires k < |attrs|
    ensures k < |TraitTypes(attrs)| && TraitTypes(attrs)[k] == attrs[k].traitType
    decreases k
  {
    TraitTypesLength(attrs);
    if k > 0 {
      TraitTypesAt(attrs[1..], k - 1);
    }
  }

  /** TraitValue finds the attribute at k when no earlier attribute carries the same name. */
  lemma {:induction false} TraitValueAt(attrs: seq<Attribute>, k: nat)
    requires k < |attrs|
    requires forall j :: 0 <= j < k ==> attrs[j].traitType != attrs[k].traitType
    ensures TraitValue(attrs, attrs[k].traitType) == Some(attrs[k].value)
    decreases k
  {
    if k > 0 {
      TraitValueAt(attrs[1..], k - 1);
    }
  }

  /** Every record has exactly eight attributes, named in the fixed order. */
  lemma GeneratedTraitOrder(id: JsValue, ticketType: JsValue, ccmCount: JsValue)
    ensures |Generate(id, ticketType, ccmCount).attributes| == 8
    ensures TraitTypes(Generate(id, ticketType, ccmCount).attributes) == TraitOrder
  {
    var attrs := Generate(id, ticketType, ccmCount).attributes;
    var names := TraitTypes(attrs);
    TraitTypesLength(attrs);
    forall k | 0 <= k < 8
      ensures names[k] == TraitOrder[k]
    {
      TraitTypesAt(attrs, k);
    }
    assert |names| == |TraitOrder|;
    assert names == TraitOrder;
  }

  /** Looked up by name, each trait of a record has its constant value or the text of its input. */
  lemma GeneratedTraitValues(id: JsValue, ticketType: JsValue, ccmCount: JsValue)
    ensures var attrs := Generate(id, ticketType, ccmCount).attributes;
      && TraitValue(attrs, "Event ID") == Some("2")
      && TraitValue(attrs, "Event Type") == Some("IRL")
      && TraitValue(attrs, "Location") == Some("Somewhere in the sea on a yacht")
      && TraitValue(attrs, "Participation") == Some("In-Person")
      && TraitValue(attrs, "Ticket ID") == Some(ToText(id))
      && TraitValue(attrs, "Ticket Type") == Some(ToText(ticketType))
      && TraitValue(attrs, "CCM Count") == Some(ToText(ccmCount))
      && TraitValue(attrs, "Block Height") == Some("840,000")
  {
    var attrs := Generate(id, ticketType, ccmCount).attributes;
    forall k | 0 <= k < 8
      ensures TraitValue(attrs, attrs[k].traitType) == Some(attrs[k].value)
    {
      TraitValueAt(attrs, k);
    }
    assert attrs[0].traitType == "Event ID";
    assert attrs[1].traitType == "Event Type";
    assert attrs[2].traitType == "Location";
    assert attrs[3].traitType == "Participation";
    assert attrs[4].traitType == "Ticket ID";
    assert attrs[5].traitType == "Ticket Type";
    assert attrs[6].traitType == "CCM Count";
    assert attrs[7].traitType == "Block Height";
  }

  /** The name and the image URL both end in the same text as the "Ticket ID" trait. */
  lemma GeneratedNameAndImage(id: JsValue, ticketType: JsValue, ccmCount: JsValue)
    ensures var m := Generate(id, ticketType, ccmCount);
      TraitValue(m.attributes, "Ticket ID") == Some(m.name[|NamePrefix|..]) &&
      m.name == NamePrefix + m.name[|NamePrefix|..] &&
      m.image == ImageBase + m.name[|NamePrefix|..]
  {
    GeneratedTraitValues(id, ticketType, ccmCount);
    var m := Generate(id, ticketType, ccmCount);
    assert m.name[|NamePrefix|..] == ToText(id);
  }

  /** Description, external URL and the five event traits are the same for every input. */
  lemma GeneratedConstantsIndependent(
    id: JsValue, ticketType: JsValue, ccmCount: JsValue,
    id': JsValue, ticketType': JsValue, ccmCount': JsValue)
    ensures var m, m' := Generate(id, ticketType, ccmCount), Generate(id', ticketType', ccmCount');
      && m.description == m'.description == Description
      && m.externalUrl == m'.externalUrl == ExternalUrl
      && (forall k | k in {0, 1, 2, 3, 7} :: m.attributes[k] == m'.attributes[k])
  {
  }

  /** Two records are equal exactly when the three inputs have equal texts. */
  lemma GenerateDeterminedByText(
    id: JsValue, ticketType: JsValue, ccmCount: JsValue,
    id': JsValue, ticketType': JsValue, ccmCount': JsValue)
    ensures Generate(id, ticketType, ccmCount) == Generate(id', ticketType', ccmCount')
        <==> ToText(id) == ToText(id') && ToText(ticketType) == ToText(ticketType')
             && ToText(ccmCount) == ToText(ccmCount')
  {
  }
}
