/** The object a request refers to: its address, and loading it. */
module Bodies {
  import opened Config

  datatype Enc = Enc(alg: string, kid: string, nonce: string)

  datatype Locator = Locator(
    store: string, driver: string, key: string, unavailable: string,
    sha256: string, processedSha256: string, truncated: bool, enc: Option<Enc>)

  /** Locator.validate: an absent object has no address, and an address has both its parts. */
  predicate Addressed(loc: Option<Locator>) {
    loc.Some? ==>
      && (loc.value.unavailable != "" ==> loc.value.driver == "" && loc.value.key == "")
      && (loc.value.driver == "" <==> loc.value.key == "")
  }

  /** A loaded object. No data is not the same as empty data. */
  datatype Body = Body(data: Option<Bytes>, truncated: bool, unavailable: string, fault: bool, sha256: string)

  const EMPTY := Body(None, false, "", false, "")

  predicate Available(b: Body) { b.unavailable == "" }

  datatype Got = Found(raw: Option<Bytes>) | UnknownDriver | StoreError

  /** The object store, the decryption of an object and the digest. */
  datatype Loader = Loader(
    get: Option<(string, string, string) -> Got>,
    decrypt: (Enc, Bytes) -> Option<Option<Bytes>>,
    digest: Bytes -> string)

  function Content(raw: Option<Bytes>): Bytes { if raw.None? then "" else raw.value }

  function Fault(why: string): Body { Body(None, false, why, true, "") }

  /** Loader.finish. */
  function Finish(l: Loader, loc: Locator, stored: Option<Bytes>): Body {
    var plain := if loc.enc.None? then Some(stored) else l.decrypt(loc.enc.value, Content(stored));
    if plain.None? then Fault("decrypt_failed")
    else
      var digest := l.digest(Content(plain.value));
      var want :=
        if loc.processedSha256 != "" then loc.processedSha256
        else if loc.truncated then ""
        else loc.sha256;
      if want != "" && want != digest then Fault("digest_mismatch")
      else Body(plain.value, loc.truncated, "", false, digest)
  }

  /** Loader.Load. */
  function Load(l: Loader, loc: Option<Locator>): Body {
    if loc.None? then EMPTY
    else if loc.value.unavailable != "" then EMPTY.(unavailable := loc.value.unavailable)
    else if loc.value.driver == "" then EMPTY
    else if l.get.None? then Fault("store_unconfigured")
    else match l.get.value(loc.value.driver, loc.value.store, loc.value.key)
      case UnknownDriver => Fault("unknown_driver")
      case StoreError => Fault("store_error")
      case Found(raw) => Finish(l, loc.value, raw)
  }

  /** Data is only ever loaded from an address with a key, and it has the promised digest: the
      one of the processed object if it is given, else the one of the whole object. */
  lemma LoadedDataIsAddressed(l: Loader, loc: Option<Locator>)
    requires Addressed(loc) && Load(l, loc).data.Some?
    ensures loc.Some? && loc.value.driver != "" && loc.value.key != "" && loc.value.unavailable == ""
    ensures Available(Load(l, loc)) && !Load(l, loc).fault && Load(l, loc).truncated == loc.value.truncated
    ensures loc.value.processedSha256 != "" ==> l.digest(Load(l, loc).data.value) == loc.value.processedSha256
    ensures loc.value.processedSha256 == "" && !loc.value.truncated && loc.value.sha256 != "" ==>
      l.digest(Load(l, loc).data.value) == loc.value.sha256
  {}

  /** The request gives the object no address. */
  predicate Unaddressed(loc: Option<Locator>) {
    loc.None? || (loc.value.unavailable == "" && loc.value.driver == "")
  }

  /** A stored object, also an empty one, is never taken for a missing one. */
  ghost predicate Solid(l: Loader) {
    && (l.get.Some? ==> forall d, s, k :: l.get.value(d, s, k).Found? ==> l.get.value(d, s, k).raw.Some?)
    && (forall enc, raw :: l.decrypt(enc, raw).Some? ==> l.decrypt(enc, raw).value.Some?)
  }

  /** Nothing is loaded and nothing is wrong exactly if there was nothing to load. */
  lemma NothingLoadedIff(l: Loader, loc: Option<Locator>)
    requires Solid(l)
    ensures var b := Load(l, loc); (Available(b) && !b.truncated && b.data.None?) <==> Unaddressed(loc)
  {}
}
