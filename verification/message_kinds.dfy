/** Messages and the message-kind codec: the storage tag of each kind
    (`MessageKind.messageKindString`) and the text a kind contributes to a
    stored record (the `switch firstMessage.kind` blocks of the database
    layer). */
module MessageKinds {
  import opened Wrappers

  /** A payload the app never persists (media, location, contact, link or
      custom item); only a reference to it is kept in the model. */
  datatype Attachment = Attachment(reference: string)

  /** The ten kinds of message content, in their declaration order. */
  datatype MessageKind =
    | Text(text: string)
    | AttributedText(attributed: string)
    | Photo(photo: Attachment)
    | Video(video: Attachment)
    | Location(location: Attachment)
    | Emoji(emoji: string)
    | Audio(audio: Attachment)
    | Contact(contact: Attachment)
    | LinkPreview(link: Attachment)
    | Custom(custom: Attachment)

  /** A point in time (`Date`), seconds since some epoch. */
  type Timestamp = int

  /** The app's date formatter (medium date, long time, current time zone);
      its output depends on locale and zone, so it is a parameter. */
  type DateFormat = Timestamp -> string

  datatype Sender = Sender(photoUrl: string, senderId: string, displayName: string)

  datatype Message = Message(sender: Sender, messageId: string, sentDate: Timestamp, kind: MessageKind)

  /** The storage tags, one per kind, in declaration order. */
  const Tags: seq<string> := ["text", "attributed_text", "photo", "video", "location",
                              "emoji", "audio", "contact", "link_preview", "custom"]

  /** The position of a kind's variant in the declaration. */
  function VariantIndex(k: MessageKind): (i: nat)
    ensures i < |Tags|
  {
    match k
    case Text(_) => 0
    case AttributedText(_) => 1
    case Photo(_) => 2
    case Video(_) => 3
    case Location(_) => 4
    case Emoji(_) => 5
    case Audio(_) => 6
    case Contact(_) => 7
    case LinkPreview(_) => 8
    case Custom(_) => 9
  }

  /** `messageKindString`: the tag stored in a message record's `type`. */
  function KindString(k: MessageKind): (tag: string)
    ensures tag == Tags[VariantIndex(k)]
  {
    match k
    case Text(_) => "text"
    case AttributedText(_) => "attributed_text"
    case Photo(_) => "photo"
    case Video(_) => "video"
    case Location(_) => "location"
    case Emoji(_) => "emoji"
    case Audio(_) => "audio"
    case Contact(_) => "contact"
    case LinkPreview(_) => "link_preview"
    case Custom(_) => "custom"
  }

  /** The text a message contributes to storage, both as a conversation's
      latest message and as a message record's content. */
  function ExtractText(k: MessageKind): (text: string)
    ensures k.Text? ==> text == k.text
    ensures !k.Text? ==> text == ""
  {
    match k
    case Text(t) => t
    case AttributedText(_) => ""
    case Photo(_) => ""
    case Video(_) => ""
    case Location(_) => ""
    case Emoji(_) => ""
    case Audio(_) => ""
    case Contact(_) => ""
    case LinkPreview(_) => ""
    case Custom(_) => ""
  }

  /** The variant a stored tag names, if any. */
  function VariantOfTag(tag: string): (r: Option<nat>)
    ensures r.Some? ==> r.value < |Tags| && Tags[r.value] == tag
    ensures r.None? ==> tag !in Tags
  {
    if tag == "text" then Some(0)
    else if tag == "attributed_text" then Some(1)
    else if tag == "photo" then Some(2)
    else if tag == "video" then Some(3)
    else if tag == "location" then Some(4)
    else if tag == "emoji" then Some(5)
    else if tag == "audio" then Some(6)
    else if tag == "contact" then Some(7)
    else if tag == "link_preview" then Some(8)
    else if tag == "custom" then Some(9)
    else None
  }

  /** Reconstructs a kind from a stored `type` and `content`. Only text
      carries its payload through storage, so only text comes back. */
  function DecodeKind(tag: string, content: string): (r: Option<MessageKind>)
    ensures r.Some? <==> tag == "text"
    ensures r.Some? ==> r.value.Text? && r.value.text == content
  {
    if tag == "text" then Some(Text(content)) else None
  }

  /** The ten tags are pairwise distinct. */
  lemma TagsDistinct()
    ensures forall i, j :: 0 <= i < j < |Tags| ==> Tags[i] != Tags[j]
  {
    assert Tags[0][0] == 't' && Tags[1][0] == 'a' && Tags[2][0] == 'p' && Tags[3][0] == 'v';
    assert Tags[4][0] == 'l' && Tags[5][0] == 'e' && Tags[6][0] == 'a' && Tags[7][0] == 'c';
    assert Tags[8][0] == 'l' && Tags[9][0] == 'c';
    assert Tags[1][1] == 't' && Tags[6][1] == 'u';
    assert Tags[4][1] == 'o' && Tags[8][1] == 'i';
    assert Tags[7][1] == 'o' && Tags[9][1] == 'u';
  }

  /** Two kinds get the same tag exactly when they are the same variant:
      the tag is a lossless name for the variant. */
  lemma KindStringInjective(a: MessageKind, b: MessageKind)
    ensures KindString(a) == KindString(b) <==> VariantIndex(a) == VariantIndex(b)
  {
    TagsDistinct();
  }

  /** Reading a kind's tag back names the kind's variant. */
  lemma TagRoundTrip(k: MessageKind)
    ensures VariantOfTag(KindString(k)) == Some(VariantIndex(k))
  {
    TagsDistinct();
  }

  /** Encoding a kind as (tag, content) and decoding gives back exactly the
      text messages; every other kind loses its payload. */
  lemma KindRoundTrip(k: MessageKind)
    ensures DecodeKind(KindString(k), ExtractText(k)) == (if k.Text? then Some(k) else None)
  {
    TagsDistinct();
  }
}
