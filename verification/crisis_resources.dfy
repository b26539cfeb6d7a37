/** The localized crisis resources that replace the chat reply when the
    detector fires (`getCrisisResources` in supabase/functions/Chat.ts). */
module CrisisResources {
  import opened Js

  const EN: string := "en"
  const HI: string := "hi"
  const ENGLISH_RESOURCES: string := "If you are in immediate danger or thinking about self-harm, please dial your local emergency number or call a crisis helpline such as 988 in the U.S."
  const HINDI_RESOURCES: string := "यदि आप तत्काल खतरे में हैं या आत्म-हानि के बारे में सोच रहे हैं, तो कृपया अपने स्थानीय आपातकालीन नंबर पर कॉल करें।"
  const CLOSING: string := "\n\nYou are not alone. Please reach out to someone you trust."

  /** What reading a key of a plain object literal yields: one of its own
      properties, a property inherited from `Object.prototype`, or
      `undefined`. */
  datatype Property = Own(text: string) | Inherited(name: string) | Undefined

  /** The properties every object literal inherits from `Object.prototype`;
      all of them are functions or objects, so none is nullish. */
  const PROTOTYPE_NAMES: seq<string> := [
    "constructor", "hasOwnProperty", "isPrototypeOf",
    "propertyIsEnumerable", "toLocaleString", "toString",
    "valueOf", "__proto__", "__defineGetter__",
    "__defineSetter__", "__lookupGetter__", "__lookupSetter__"
  ]

  /** `resources[language]` on the literal `{ en: …, hi: … }`. */
  function ResourceProperty(language: string): Property {
    if language == EN then Own(ENGLISH_RESOURCES)
    else if language == HI then Own(HINDI_RESOURCES)
    else if language in PROTOTYPE_NAMES then Inherited(language)
    else Undefined
  }

  /** `getCrisisResources` as written: `resources[language] ?? resources["en"]`.
      The fallback only replaces a nullish value. */
  function ResourcesAsWritten(language: string): (v: Property)
    ensures v != Undefined
    ensures v.Own? ==> v.text == ENGLISH_RESOURCES || v.text == HINDI_RESOURCES
  {
    match ResourceProperty(language)
    case Undefined => ResourceProperty(EN)
    case found => found
  }

  /** A language named after an inherited property slips past the fallback:
      the value read is an `Object.prototype` member, not any resource text. */
  lemma PrototypeNameSkipsFallback()
    ensures ResourcesAsWritten("toString") == Inherited("toString")
    ensures ResourcesAsWritten("constructor") == Inherited("constructor")
  {
    assert "toString" in PROTOTYPE_NAMES;
    assert "constructor" in PROTOTYPE_NAMES;
  }

  /** The string `+` makes of the looked-up value when the reply is built.
      An own property is already a string. An inherited method goes through
      `Function.prototype.toString`, which V8 prints as
      `function <name>() { [native code] }`; the inherited `constructor` is the
      `Object` function. `__proto__` reads `Object.prototype` itself, an
      ordinary object, which converts to "[object Object]". */
  function Render(p: Property): string {
    match p
    case Own(text) => text
    case Inherited(name) =>
      if name == "__proto__" then "[object Object]"
      else if name == "constructor" then NativeFunction("Object")
      else NativeFunction(name)
    case Undefined => "undefined"
  }

  /** How V8 prints a built-in function. */
  function NativeFunction(name: string): string {
    "function " + name + "() { [native code] }"
  }

  /** The crisis text the code as written puts in front of the closing line:
      the resources for every language but the inherited property names, for
      which it is the printed form of an `Object.prototype` member and no
      crisis text at all. */
  function CrisisTextAsWritten(language: string): (t: string)
    ensures language !in PROTOTYPE_NAMES ==> t == Resources(language)
    ensures language in PROTOTYPE_NAMES ==> t != ENGLISH_RESOURCES && t != HINDI_RESOURCES
  {
    var t := Render(ResourcesAsWritten(language));
    if language in PROTOTYPE_NAMES then
      RenderedMemberIsNoResource(language);
      t
    else
      ResourcesAgreeOffPrototype(language);
      t
  }

  /** The printed form of an inherited member is never a crisis text: it is
      far shorter than either. */
  lemma RenderedMemberIsNoResource(name: string)
    requires name in PROTOTYPE_NAMES
    ensures ResourcesAsWritten(name) == Inherited(name)
    ensures Render(Inherited(name)) != ENGLISH_RESOURCES && Render(Inherited(name)) != HINDI_RESOURCES
  {
    assert |name| <= 20;
    assert |Render(Inherited(name))| <= 50;
    assert |ENGLISH_RESOURCES| > 50 && |HINDI_RESOURCES| > 50;
  }

  /** The language "toString" yields the printed `toString` method, and
      "__proto__" the printed prototype object. */
  lemma ToStringRendered()
    ensures CrisisTextAsWritten("toString") == NativeFunction("toString")
    ensures CrisisTextAsWritten("__proto__") == "[object Object]"
  {
    PrototypeNameSkipsFallback();
    assert "__proto__" in PROTOTYPE_NAMES;
    assert ResourcesAsWritten("__proto__") == Inherited("__proto__");
  }

  /** `getCrisisResources` with the lookup restricted to the object's own
      keys: Hindi for "hi", English for "en" and every other language. */
  function Resources(language: string): (r: string)
    ensures r == HINDI_RESOURCES <==> language == HI
    ensures r == ENGLISH_RESOURCES <==> language != HI
  {
    if language == HI then HINDI_RESOURCES else ENGLISH_RESOURCES
  }

  /** The corrected lookup agrees with the code as written on every language
      that is not the name of an inherited property. */
  lemma ResourcesAgreeOffPrototype(language: string)
    requires language !in PROTOTYPE_NAMES
    ensures ResourcesAsWritten(language) == Own(Resources(language))
  {
  }
}
