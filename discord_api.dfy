/** What the two Discord services share: the reply of an HTTP call as the
    services see it, and the CDN addresses of avatars and banners. */
module DiscordApi {
  import opened Values

  /** The parsed body of a reply: JSON `null`, another falsy body (the empty
      string an empty reply is read as, `0`, `false`), or an object. */
  datatype Body = NullBody | FalsyBody | ObjectBody(fields: Record)

  /** The properties a body that is not `null` reads as: a falsy primitive
      has none, so each of them reads as `undefined`. */
  function Fields(b: Body): (f: Record)
    requires !b.NullBody?
    ensures b.ObjectBody? ==> f == b.fields
    ensures b.FalsyBody? ==> f == map[]
  {
    if b.ObjectBody? then b.fields else map[]
  }

  /** The outcome of one call through the HTTP client: a reply with a status
      in 200..299, or a failure the client raises itself (network error or any
      other status). */
  datatype Outcome = Received(status: int, data: Body) | ClientFailure

  datatype ImageKind = Avatars | Banners

  /** An image on the CDN: the embedded default avatar, or a custom image
      identified by its owner and hash. */
  datatype Image = DefaultAvatar | Custom(kind: ImageKind, ownerId: string, hash: string)

  const CdnBase := "https://cdn.discordapp.com/"
  const SizeQuery := "?size=4096"

  /** Animated images have hashes beginning with `a_` and are served as GIF. */
  function ImageFormat(hash: string): (f: string)
    ensures f == "gif" <==> StartsWith(hash, "a_")
    ensures f == "gif" || f == "png"
  {
    if StartsWith(hash, "a_") then "gif" else "png"
  }

  function KindPath(kind: ImageKind): string
  {
    match kind
    case Avatars => "avatars"
    case Banners => "banners"
  }

  function ImageUrl(img: Image): (url: string)
    ensures StartsWith(url, CdnBase) && EndsWith(url, SizeQuery)
    ensures img.Custom? ==> EndsWith(url, "." + ImageFormat(img.hash) + SizeQuery)
  {
    match img
    case DefaultAvatar => CdnBase + "embed/avatars/0.png" + SizeQuery
    case Custom(kind, id, hash) =>
      CdnBase + KindPath(kind) + "/" + id + "/" + hash + "." + ImageFormat(hash) + SizeQuery
  }

  /** The image step as the services write it: the format is computed from
      `receiver.startsWith('a_')` before the hash is tested, so only a string
      hash gets past the first step, and only the empty string reaches the
      default. The error is the TypeError's message. */
  function ResolveImageAsWritten(kind: ImageKind, ownerId: string, hash: Value, receiver: string): (r: Result<Image, string>)
    ensures r.Ok? <==> hash.Str?
    ensures r == Ok(DefaultAvatar) <==> hash == Str("")
    ensures hash.Str? && hash.s != "" ==> r == Ok(Custom(kind, ownerId, hash.s))
    ensures r.Fail? ==> r.error != ""
  {
    match CallStartsWith(hash, receiver, "a_")
    case Fail(message) => Fail(message)
    case Ok(_) => Ok(if Truthy(hash) then Custom(kind, ownerId, hash.s) else DefaultAvatar)
  }

  /** The image step as evidently intended: a missing hash (`null`, `undefined`
      or empty) gives the default, and the format is read only from a hash
      that is there. A truthy hash that is not a string still throws. */
  function ResolveImage(kind: ImageKind, ownerId: string, hash: Value, receiver: string): (r: Result<Image, string>)
    ensures r == Ok(DefaultAvatar) <==> !Truthy(hash)
    ensures r.Ok? && r.value.Custom? <==> hash.Str? && hash.s != ""
    ensures hash.Str? && hash.s != "" ==> r == Ok(Custom(kind, ownerId, hash.s))
    ensures r.Fail? <==> Truthy(hash) && !hash.Str?
    ensures r.Fail? ==> r.error != ""
    ensures ResolveImageAsWritten(kind, ownerId, hash, receiver).Ok? ==> r == ResolveImageAsWritten(kind, ownerId, hash, receiver)
  {
    if !Truthy(hash) then Ok(DefaultAvatar)
    else
      match CallStartsWith(hash, receiver, "a_")
      case Fail(message) => Fail(message)
      case Ok(_) => Ok(Custom(kind, ownerId, hash.s))
  }

  /** A `null` hash, which the API sends for a user without a custom image,
      makes the written step throw where the intended step gives the default. */
  lemma NullHashThrows(kind: ImageKind, ownerId: string, receiver: string)
    ensures ResolveImageAsWritten(kind, ownerId, Null, receiver)
      == Fail("Cannot read properties of null (reading 'startsWith')")
    ensures ResolveImage(kind, ownerId, Null, receiver) == Ok(DefaultAvatar)
  {
  }
}
