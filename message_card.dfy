/**
 * The legacy actionable message card used by Office 365 / Microsoft Teams
 * connectors: its fields, the check on its required fields, and Prepare,
 * which serialises the card to JSON into the card's own payload buffer.
 */
module MessageCards {
  import opened Wrappers
  import opened Json

  /** The fixed value of the `@type` member. */
  const MessageCardType := "MessageCard"
  /** The fixed value of the `@context` member. */
  const MessageCardContext := "https://schema.org/extensions"

  /** Why Validate rejected a card. */
  datatype CardError = TitleRequired | TextRequired

  /**
   * The position of a JSON key in the card's struct-field order
   * (`@type`, `@context`, `title`, `text`, `color`); 5 for any other key.
   */
  function FieldRank(key: string): nat {
    if key == "@type" then 0
    else if key == "@context" then 1
    else if key == "title" then 2
    else if key == "text" then 3
    else if key == "color" then 4
    else 5
  }

  /** The keys of the members, in order. */
  function Keys(ms: seq<Member>): (ks: seq<string>)
    ensures |ks| == |ms| && forall i :: 0 <= i < |ms| ==> ks[i] == ms[i].key
  {
    seq(|ms|, i requires 0 <= i < |ms| => ms[i].key)
  }

  predicate HasKey(ms: seq<Member>, key: string) {
    key in Keys(ms)
  }

  /** The value of the first member named `key`; the empty string when there is none. */
  function Lookup(ms: seq<Member>, key: string): (v: string)
    ensures !HasKey(ms, key) ==> v == ""
    ensures HasKey(ms, key) ==> Member(key, v) in ms
  {
    if ms == [] then ""
    else if ms[0].key == key then ms[0].value
    else
      assert Keys(ms) == [ms[0].key] + Keys(ms[1..]);
      Lookup(ms[1..], key)
  }

  /** The fields of a card that its JSON form carries (every field but the payload buffer). */
  datatype Card = Card(cardType: string, context: string, title: string, text: string, color: string) {

    /** Required-field check: the title is checked before the text. */
    function Validate(): (r: Outcome<CardError>)
      ensures r == Pass <==> title != "" && text != ""
      ensures title == "" ==> r == Fail(TitleRequired)
      ensures r == Fail(TextRequired) <==> title != "" && text == ""
    {
      if title == "" then Fail(TitleRequired)
      else if text == "" then Fail(TextRequired)
      else Pass
    }

    /**
     * The members json.Marshal writes for the card: `@type` and `@context`
     * always, `title`, `text` and `color` only when non-empty (`omitempty`),
     * never the payload (`json:"-"`), in struct-field order.
     */
    function Members(): (ms: seq<Member>)
      ensures |ms| >= 2 && ms[0] == Member("@type", cardType) && ms[1] == Member("@context", context)
      ensures forall i, j :: 0 <= i < j < |ms| ==> FieldRank(ms[i].key) < FieldRank(ms[j].key)
      ensures forall i :: 0 <= i < |ms| ==> FieldRank(ms[i].key) < 5
    {
      [Member("@type", cardType), Member("@context", context)]
      + OmitEmpty("title", title) + OmitEmpty("text", text) + OmitEmpty("color", color)
    }
  }

  /** The `omitempty` rule: a member for a non-empty value, nothing for an empty one. */
  function OmitEmpty(key: string, value: string): seq<Member> {
    if value != "" then [Member(key, value)] else []
  }

  lemma KeysOfConcat(a: seq<Member>, b: seq<Member>)
    ensures Keys(a + b) == Keys(a) + Keys(b)
  {
  }

  /**
   * `@type` and `@context` are always written; `title`, `text` and `color`
   * exactly when non-empty; the payload never.
   */
  lemma {:induction false} KeysPresent(c: Card)
    ensures HasKey(c.Members(), "@type") && HasKey(c.Members(), "@context")
    ensures HasKey(c.Members(), "title") <==> c.title != ""
    ensures HasKey(c.Members(), "text") <==> c.text != ""
    ensures HasKey(c.Members(), "color") <==> c.color != ""
    ensures !HasKey(c.Members(), "payload")
  {
    assert "title" != "color" by { assert "title"[0] != "color"[0]; }
    assert "title" != "@type" && "title" != "@context" && "title" != "text";
    assert "text" != "@type" && "text" != "@context" && "text" != "color";
    assert "color" != "@type" && "color" != "@context";
    assert "payload" != "@type" && "payload" != "@context" && "payload" != "title";
    assert "payload" != "text" && "payload" != "color";
    MemberKeys(c, "@type");
    MemberKeys(c, "@context");
    MemberKeys(c, "title");
    MemberKeys(c, "text");
    MemberKeys(c, "color");
    MemberKeys(c, "payload");
  }

  /** The keys of a card's members, for one key at a time. */
  lemma MemberKeys(c: Card, key: string)
    ensures HasKey(c.Members(), key) <==>
      (key == "@type" || key == "@context" || (key == "title" && c.title != "")
       || (key == "text" && c.text != "") || (key == "color" && c.color != ""))
  {
    var fixed := [Member("@type", c.cardType), Member("@context", c.context)];
    var t, x, k := OmitEmpty("title", c.title), OmitEmpty("text", c.text), OmitEmpty("color", c.color);
    KeysOfConcat(fixed, t);
    KeysOfConcat(fixed + t, x);
    KeysOfConcat(fixed + t + x, k);
    assert Keys(c.Members()) == ["@type", "@context"] + Keys(t) + Keys(x) + Keys(k);
    assert Keys(t) == if c.title != "" then ["title"] else [];
    assert Keys(x) == if c.text != "" then ["text"] else [];
    assert Keys(k) == if c.color != "" then ["color"] else [];
  }

  /** In members whose keys follow the struct-field order, a key names exactly one member. */
  lemma RankedLookup(ms: seq<Member>, m: Member)
    requires forall i, j :: 0 <= i < j < |ms| ==> FieldRank(ms[i].key) < FieldRank(ms[j].key)
    requires m in ms
    ensures Lookup(ms, m.key) == m.value
  {
    var i :| 0 <= i < |ms| && ms[i] == m;
    assert Keys(ms)[i] == m.key;
    var v := Lookup(ms, m.key);
    var j :| 0 <= j < |ms| && ms[j] == Member(m.key, v);
    assert !(i < j) && !(j < i);
  }

  /** Every field of the card can be read back from its members; an omitted field was empty. */
  lemma LookupFixedFields(c: Card)
    ensures Lookup(c.Members(), "@type") == c.cardType
    ensures Lookup(c.Members(), "@context") == c.context
  {
    var ms := c.Members();
    RankedLookup(ms, ms[0]);
    RankedLookup(ms, ms[1]);
  }

  lemma LookupOptionalField(c: Card, key: string, value: string, i: nat)
    requires i < |c.Members()| && c.Members()[i] == Member(key, value)
    ensures Lookup(c.Members(), key) == value
  {
    RankedLookup(c.Members(), Member(key, value));
  }

  lemma MembersDetermineCard(c: Card)
    ensures Lookup(c.Members(), "@type") == c.cardType
    ensures Lookup(c.Members(), "@context") == c.context
    ensures Lookup(c.Members(), "title") == c.title
    ensures Lookup(c.Members(), "text") == c.text
    ensures Lookup(c.Members(), "color") == c.color
  {
    var ms := c.Members();
    LookupFixedFields(c);
    KeysPresent(c);
    if c.title != "" {
      LookupOptionalField(c, "title", c.title, 2);
    }
    if c.text != "" {
      LookupOptionalField(c, "text", c.text, if c.title != "" then 3 else 2);
    }
    if c.color != "" {
      LookupOptionalField(c, "color", c.color, |ms| - 1);
    }
  }

  /** json.Marshal of the card: the compact JSON object of its members. */
  function Marshal(c: Card): (r: string)
    ensures DecodeObject(r) == Some(c.Members())
  {
    ObjectRoundTrip(c.Members());
    EncodeObject(c.Members())
  }

  /** Reads a card back from the compact JSON object Marshal writes. */
  function Unmarshal(s: string): Option<Card> {
    match DecodeObject(s)
    case None => None
    case Some(ms) =>
      Some(Card(Lookup(ms, "@type"), Lookup(ms, "@context"), Lookup(ms, "title"),
                Lookup(ms, "text"), Lookup(ms, "color")))
  }

  /** The serialisation loses nothing: the card can be read back from its JSON text. */
  lemma MarshalRoundTrip(c: Card)
    ensures Unmarshal(Marshal(c)) == Some(c)
  {
    ObjectRoundTrip(c.Members());
    MembersDetermineCard(c);
  }

  /** Two cards with the same JSON text are the same card. */
  lemma MarshalInjective(c: Card, d: Card)
    requires Marshal(c) == Marshal(d)
    ensures c == d
  {
    MarshalRoundTrip(c);
    MarshalRoundTrip(d);
  }

  /** The growable byte buffer (Go's bytes.Buffer) that holds a prepared payload. */
  class Buffer {
    /** The text written and not yet read. */
    var contents: string

    constructor ()
      ensures contents == []
    {
      contents := [];
    }

    method Reset()
      modifies this
      ensures contents == []
    {
      contents := [];
    }

    method Write(p: string) returns (n: nat)
      modifies this
      ensures contents == old(contents) + p
      ensures n == |p|
    {
      contents := contents + p;
      n := |p|;
    }

    /** Reads the buffer to its end (as an HTTP client reads a request body): returns the unread text and leaves none. */
    method ReadAll() returns (data: string)
      modifies this
      ensures data == old(contents)
      ensures contents == []
    {
      data := contents;
      contents := [];
    }
  }

  /** A message card; its fields are set by the caller, its payload only by Prepare. */
  class MessageCard {
    var cardType: string
    var context: string
    var title: string
    var text: string
    var color: string
    /** The buffer Prepare writes into; null until the first Prepare. */
    var payload: Buffer?

    /** CreateMessageCard: the two fixed fields set, everything else empty, no payload. */
    constructor Create()
      ensures View() == Card(MessageCardType, MessageCardContext, "", "", "")
      ensures payload == null && Payload() == None
    {
      cardType := MessageCardType;
      context := MessageCardContext;
      title, text, color := "", "", "";
      payload := null;
    }

    /** The card's serialisable fields as a value. */
    function View(): Card
      reads this
    {
      Card(cardType, context, title, text, color)
    }

    /**
     * Serialises the card into its payload buffer: allocates the buffer on
     * the first call, empties it on later calls, then writes the JSON text.
     * Only the payload changes.
     */
    method Prepare()
      modifies this`payload, payload
      ensures View() == old(View())
      ensures payload != null && payload.contents == Marshal(View())
      ensures Payload() == Some(Marshal(View()))
      ensures old(payload) != null ==> payload == old(payload)
      ensures old(payload) == null ==> fresh(payload)
    {
      var json := Marshal(View());
      if payload == null {
        payload := new Buffer();
      } else {
        payload.Reset();
      }
      var _ := payload.Write(json);
    }

    /** The prepared payload: None before the first Prepare, else the buffer's contents. */
    function Payload(): (r: Option<string>)
      reads this, payload
      ensures r.None? <==> payload == null
      ensures r.Some? ==> r.value == payload.contents
    {
      if payload == null then None else Some(payload.contents)
    }
  }

  /**
   * Prepare is idempotent: a second call with no field changed in between
   * leaves the same JSON text in the same buffer, the one the card already
   * had or else the one the first call allocated.
   */
  method PrepareTwice(card: MessageCard) returns (first: string, second: string)
    modifies card`payload, card.payload
    ensures first == second
    ensures card.Payload() == Some(first) && Unmarshal(first) == Some(old(card.View()))
    ensures old(card.payload) != null ==> card.payload == old(card.payload)
    ensures old(card.payload) == null ==> fresh(card.payload)
  {
    card.Prepare();
    first := card.payload.contents;
    var buffer := card.payload;
    card.Prepare();
    second := card.payload.contents;
    assert card.payload == buffer;
    MarshalRoundTrip(card.View());
  }
}
