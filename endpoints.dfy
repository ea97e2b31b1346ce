/** The client's table of server routes and request time-outs, and the
    lookup of a route by name. */
module Endpoints {
  import opened Common

  /** Request time-outs in milliseconds (the `defaultConfig` object). */
  datatype Timeouts = Timeouts(chatTimeout: nat, ttsTimeout: nat, punctuateTimeout: nat)

  const DefaultTimeouts: Timeouts := Timeouts(120000, 30000, 15000)

  /** The own properties of the `endpoints` object. */
  const Routes: map<string, string> :=
    map["chat" := "/api/chat", "tts" := "/api/tts", "punctuate" := "/api/punctuate"]

  /** Property names every plain JavaScript object inherits from `Object.prototype`;
      each of them is bound to a function or an object, so each is truthy. */
  const InheritedNames: set<string> :=
    {"constructor", "hasOwnProperty", "isPrototypeOf", "propertyIsEnumerable",
     "toString", "toLocaleString", "valueOf", "__proto__",
     "__defineGetter__", "__defineSetter__", "__lookupGetter__", "__lookupSetter__"}

  /** What `endpoints[name] || null` evaluates to. */
  datatype Lookup = Url(path: string) | InheritedMember(name: string) | Null

  /** The lookup as the code is written: a bracket access walks the prototype
      chain, so an inherited member is returned instead of `null`. */
  function GetEndpointUrlAsWritten(name: string): (r: Lookup)
    ensures r.Url? <==> name == "chat" || name == "tts" || name == "punctuate"
    ensures name in Routes ==> r == Url(Routes[name])
    ensures r.InheritedMember? <==> name in InheritedNames
    ensures r.InheritedMember? ==> r.name == name
    ensures r == Null <==> name !in Routes && name !in InheritedNames
  {
    if name in Routes then Url(Routes[name])
    else if name in InheritedNames then InheritedMember(name)
    else Null
  }

  /** The discrepancy: `getEndpointUrl('toString')` does not return `null`. */
  lemma InheritedNameIsNotNull()
    ensures GetEndpointUrlAsWritten("toString") == InheritedMember("toString")
    ensures "toString" !in Routes
  {
  }

  /** The lookup as intended: a route for each of the three names, `null` otherwise. */
  function GetEndpointUrl(name: string): (r: Option<string>)
    ensures r.Some? <==> name == "chat" || name == "tts" || name == "punctuate"
    ensures name == "chat" ==> r == Some("/api/chat")
    ensures name == "tts" ==> r == Some("/api/tts")
    ensures name == "punctuate" ==> r == Some("/api/punctuate")
  {
    if name in Routes then Some(Routes[name]) else None
  }

  /** Away from the inherited names the written lookup and the intended one agree. */
  lemma AsWrittenAgreesOffPrototype(name: string)
    requires name !in InheritedNames
    ensures GetEndpointUrlAsWritten(name) ==
            (match GetEndpointUrl(name) case Some(p) => Url(p) case None => Null)
  {
  }

  lemma DefaultTimeoutValues()
    ensures DefaultTimeouts.chatTimeout == 120000
    ensures DefaultTimeouts.ttsTimeout == 30000
    ensures DefaultTimeouts.punctuateTimeout == 15000
  {
  }
}
