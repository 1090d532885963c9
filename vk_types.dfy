/**
 * Values exchanged between the relay, the VK API and the Telegram side.
 * Everything that arrives as JSON in the bot is a plain value here; a call
 * into code outside this model either returns a value or raises.
 */
module Vk {

  datatype Option<+T> = None | Some(value: T) {
    function GetOr(default: T): T {
      match this
      case Some(v) => v
      case None => default
    }
  }

  /** What a call into code outside the model (network, transform) did. */
  datatype Answer<+T> = Returned(value: T) | Raised

  /** A sender profile from the `profiles` list of a VK answer. */
  datatype Profile = Profile(id: int, firstName: string, lastName: string)

  /**
   * One raw history record. Only `date` is looked at by the bot itself
   * (with 0 when the key is absent); the rest is handed to the transform.
   */
  datatype Item = Item(id: int, date: Option<int>, text: string)

  /** A chat title as it arrives in JSON: `null` or a string. */
  datatype Title = Null | Text(text: string)

  /** One `(kind, payload)` entry of a normalized message's media list. */
  datatype Media = Media(kind: string, payload: string)

  /** The normalized outbound message built by `Message.async_init`. */
  datatype Message = Message(text: string, sender: string, media: seq<Media>)

  /**
   * `Message.async_init(session, **item, profiles=..., chat_title=...)`:
   * an opaque transform of its inputs that may raise.
   */
  type Build = (Item, seq<Profile>, Title) -> Answer<Message>

  /** True when some media entry has kind "photo". */
  predicate HasPhoto(m: Message) {
    exists k :: 0 <= k < |m.media| && m.media[k].kind == "photo"
  }
}
