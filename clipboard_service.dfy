/**
 * The clipboard monitor of services/clipboard-service.ts: it keeps a list of
 * listeners, watches paste and focus events while started, ignores text it
 * has just seen or that does not look like code, and hands every listener the
 * same snippet built from the copied text.
 *
 * Listeners are identified by a handle (JavaScript compares them by
 * identity); calling one is recorded as a `Dispatch`, in call order. The
 * clock is a pair of parameters: `now` for `Date.now()` and `isoNow` for
 * `new Date().toISOString()`.
 */
module Clipboard {
  import opened Common
  import opened LanguageDetection

  datatype ClipboardSnippet = ClipboardSnippet(
    id: string,
    code: string,
    language: string,
    project: string,
    tags: seq<string>,
    timestamp: string,
    source: string,
    enriched: bool)

  /** A registered callback, by identity. */
  datatype Listener = Listener(handle: nat)

  /** One listener call with the snippet it was given. */
  datatype Dispatch = Dispatch(listener: Listener, snippet: ClipboardSnippet)

  /** The text fragments whose presence counts as a code indicator, in order. */
  const CodeTokens: seq<string> := [
    "{", "}", "()", "[]", "=>", "->", ";",
    "function", "return", "const", "let", "var", "class", "import", "export",
    "def", "if", "else", "for", "while", "try", "catch"
  ]

  /** An indented line: a newline, whitespace, then a word character. */
  const IndentationPattern := Regex(@"\n\s+\w", "")

  const MinCodeLength := 10
  const MaxCodeLength := 10000

  /** Whether `text` contains each of `subs`, in order. */
  function Presence(subs: seq<string>, text: string): (v: seq<bool>)
    ensures |v| == |subs|
    ensures forall k :: 0 <= k < |subs| ==> v[k] == Contains(text, subs[k])
  {
    seq(|subs|, k requires 0 <= k < |subs| => Contains(text, subs[k]))
  }

  /** The indicator array `looksLikeCode` filters: one entry per fragment,
      then the indentation test, then "more than two lines". */
  function Indicators(text: string, engine: Engine): seq<bool> {
    Presence(CodeTokens, text) + [engine.test(IndentationPattern, text), |Split(text, "\n")| > 2]
  }

  /** `bs.filter(b => b).length` */
  function CountTrue(bs: seq<bool>): (n: nat)
    ensures n <= |bs|
  {
    if bs == [] then 0 else CountTrue(bs[..|bs| - 1]) + (if bs[|bs| - 1] then 1 else 0)
  }

  lemma {:induction false} CountTrueAppend(a: seq<bool>, b: seq<bool>)
    ensures CountTrue(a + b) == CountTrue(a) + CountTrue(b)
  {
    if b != [] {
      assert (a + b)[..|a + b| - 1] == a + b[..|b| - 1];
      CountTrueAppend(a, b[..|b| - 1]);
    } else {
      assert a + b == a;
    }
  }

  /** Counting the fragments one by one counts the true entries of their presence array. */
  lemma {:induction false} KeywordHitsIsCountTrue(subs: seq<string>, text: string)
    ensures KeywordHits(subs, text) == CountTrue(Presence(subs, text))
  {
    if subs != [] {
      var n := |subs| - 1;
      KeywordHitsIsCountTrue(subs[..n], text);
      assert Presence(subs, text)[..n] == Presence(subs[..n], text);
    }
  }

  /** `looksLikeCode`: text of 10 to 10000 characters for which at least two
      entries of the indicator array hold. */
  function LooksLikeCode(text: string, engine: Engine): (r: bool)
    ensures r <==> MinCodeLength <= |text| <= MaxCodeLength && CountTrue(Indicators(text, engine)) >= 2
  {
    var indented := engine.test(IndentationPattern, text);
    var multiline := |Split(text, "\n")| > 2;
    KeywordHitsIsCountTrue(CodeTokens, text);
    CountTrueAppend(Presence(CodeTokens, text), [indented, multiline]);
    assert CountTrue([indented, multiline]) == (if indented then 1 else 0) + (if multiline then 1 else 0) by {
      assert [indented, multiline][..1] == [indented];
      assert [indented][..0] == [];
    }
    if |text| < MinCodeLength || |text| > MaxCodeLength then false
    else KeywordHits(CodeTokens, text) + (if indented then 1 else 0) + (if multiline then 1 else 0) >= 2
  }

  /** External snippets are numbered by the clock: this prefix, then `Date.now()` in decimal. */
  const IdPrefix := "external-"

  /** `external-${Date.now()}`: the prefix followed by the clock's digits,
      from which the clock reading can be read back. */
  function ExternalId(now: nat): (id: string)
    ensures StartsWith(id, IdPrefix) && |id| > |IdPrefix|
    ensures forall i :: |IdPrefix| <= i < |id| ==> '0' <= id[i] <= '9'
    ensures DigitsValue(id[|IdPrefix|..]) == now
  {
    NatToStringRoundTrip(now);
    var id := IdPrefix + NatToString(now);
    assert id[|IdPrefix|..] == NatToString(now);
    id
  }

  /** The snippet `processClipboardContent` builds from accepted text. */
  function ExternalSnippet(text: string, engine: Engine, now: nat, isoNow: string): (s: ClipboardSnippet)
    ensures s.code == text && s.timestamp == isoNow && !s.enriched
    ensures s.language == Detect(text, engine) && s.language != ""
    ensures s.tags == [Lower(s.language), "external"]
    ensures s.id == ExternalId(now)
    ensures s.project == "External Source" && s.source == "External Clipboard"
  {
    var language := Detect(text, engine);
    ClipboardSnippet(
      ExternalId(now), text, OrElse(language, "Unknown"), "External Source",
      [OrElse(Lower(language), "code"), "external"], isoNow, "External Clipboard", false)
  }

  /** Whether `processClipboardContent` acts on `text` after `last`. */
  predicate Accepts(last: string, text: string, engine: Engine) {
    text != last && LooksLikeCode(text, engine)
  }

  /** Every listener, in order, called with the same snippet. */
  function Broadcast(listeners: seq<Listener>, snippet: ClipboardSnippet): (d: seq<Dispatch>)
    ensures |d| == |listeners|
    ensures forall i :: 0 <= i < |d| ==> d[i].listener == listeners[i] && d[i].snippet == snippet
  {
    seq(|listeners|, i requires 0 <= i < |listeners| => Dispatch(listeners[i], snippet))
  }

  /** `clipboardListeners.forEach(listener => listener(snippet))` */
  method Notify(listeners: seq<Listener>, snippet: ClipboardSnippet) returns (dispatched: seq<Dispatch>)
    ensures dispatched == Broadcast(listeners, snippet)
  {
    dispatched := [];
    var i := 0;
    while i < |listeners|
      invariant 0 <= i <= |listeners|
      invariant dispatched == Broadcast(listeners[..i], snippet)
    {
      dispatched := dispatched + [Dispatch(listeners[i], snippet)];
      i := i + 1;
    }
    assert listeners[..i] == listeners;
  }

  class ClipboardService {
    var listeners: seq<Listener>
    var isListening: bool
    var lastCopiedText: string
    const onSnippetCopied: Option<Listener>

    /** `new ClipboardService(options)`: the optional callback is the first listener. */
    constructor (onSnippetCopied: Option<Listener>)
      ensures this.onSnippetCopied == onSnippetCopied
      ensures listeners == (if onSnippetCopied.Some? then [onSnippetCopied.value] else [])
      ensures !isListening && lastCopiedText == ""
    {
      this.onSnippetCopied := onSnippetCopied;
      isListening := false;
      lastCopiedText := "";
      listeners := [];
      new;
      if onSnippetCopied.Some? {
        AddListener(onSnippetCopied.value);
      }
    }

    /** `start()`: begins listening when a window exists; a second start does nothing. */
    method Start(hasWindow: bool)
      modifies this
      ensures isListening == (old(isListening) || hasWindow)
      ensures listeners == old(listeners) && lastCopiedText == old(lastCopiedText)
    {
      if isListening || !hasWindow {
        return;
      }
      isListening := true;
    }

    /** `stop()`: ends listening when a window exists; stopping a stopped monitor does nothing. */
    method Stop(hasWindow: bool)
      modifies this
      ensures isListening == (old(isListening) && !hasWindow)
      ensures listeners == old(listeners) && lastCopiedText == old(lastCopiedText)
    {
      if !isListening || !hasWindow {
        return;
      }
      isListening := false;
    }

    method AddListener(listener: Listener)
      modifies this
      ensures listeners == old(listeners) + [listener]
      ensures isListening == old(isListening) && lastCopiedText == old(lastCopiedText)
    {
      listeners := listeners + [listener];
    }

    /** `removeListener`: drops every registration of `listener`, keeping the others in order. */
    method RemoveListener(listener: Listener)
      modifies this
      ensures listeners == RemoveAll(old(listeners), listener)
      ensures listener !in listeners
      ensures isListening == old(isListening) && lastCopiedText == old(lastCopiedText)
    {
      listeners := RemoveAll(listeners, listener);
      assert forall i :: 0 <= i < |listeners| ==> listeners[i] != listener;
    }

    /**
     * `processClipboardContent`: text equal to the last accepted text, or not
     * code-like, changes nothing and calls no one; otherwise the text becomes
     * the last accepted text and every listener is called, in registration
     * order, with the one snippet built from it. Either way the same text
     * arriving again is ignored.
     */
    method ProcessClipboardContent(text: string, engine: Engine, now: nat, isoNow: string)
      returns (dispatched: seq<Dispatch>)
      modifies this
      ensures listeners == old(listeners) && isListening == old(isListening)
      ensures !Accepts(old(lastCopiedText), text, engine) ==>
        dispatched == [] && lastCopiedText == old(lastCopiedText)
      ensures Accepts(old(lastCopiedText), text, engine) ==>
        lastCopiedText == text &&
        dispatched == Broadcast(listeners, ExternalSnippet(text, engine, now, isoNow))
      ensures !Accepts(lastCopiedText, text, engine)
    {
      if text == lastCopiedText || !LooksLikeCode(text, engine) {
        return [];
      }
      lastCopiedText := text;
      var snippet := ExternalSnippet(text, engine, now, isoNow);
      dispatched := Notify(listeners, snippet);
    }

    /** The paste handler: text from the event's clipboard data, when there is some. */
    method HandlePaste(data: Option<string>, engine: Engine, now: nat, isoNow: string)
      returns (dispatched: seq<Dispatch>)
      modifies this
      ensures listeners == old(listeners) && isListening == old(isListening)
      ensures (data.None? || data.value == "") ==>
        dispatched == [] && lastCopiedText == old(lastCopiedText)
      ensures data.Some? && Accepts(old(lastCopiedText), data.value, engine) ==>
        lastCopiedText == data.value &&
        dispatched == Broadcast(listeners, ExternalSnippet(data.value, engine, now, isoNow))
      ensures data.Some? && !Accepts(old(lastCopiedText), data.value, engine) ==>
        dispatched == [] && lastCopiedText == old(lastCopiedText)
    {
      dispatched := [];
      if data.Some? && data.value != "" {
        dispatched := ProcessClipboardContent(data.value, engine, now, isoNow);
      }
    }

    /** The focus and visibility handler: reads the clipboard only while the
        page is visible and the clipboard API exists; a failed read is ignored. */
    method CheckClipboardOnFocus(visible: bool, apiAvailable: bool, read: Result<string>,
                                 engine: Engine, now: nat, isoNow: string)
      returns (dispatched: seq<Dispatch>)
      modifies this
      ensures listeners == old(listeners) && isListening == old(isListening)
      ensures !(visible && apiAvailable && read.Ok?) ==>
        dispatched == [] && lastCopiedText == old(lastCopiedText)
      ensures visible && apiAvailable && read.Ok? && Accepts(old(lastCopiedText), read.value, engine) ==>
        lastCopiedText == read.value &&
        dispatched == Broadcast(listeners, ExternalSnippet(read.value, engine, now, isoNow))
      ensures visible && apiAvailable && read.Ok? && !Accepts(old(lastCopiedText), read.value, engine) ==>
        dispatched == [] && lastCopiedText == old(lastCopiedText)
    {
      dispatched := [];
      if visible && apiAvailable {
        match read {
          case Ok(text) =>
            dispatched := ProcessClipboardContent(text, engine, now, isoNow);
          case Err(_) =>
        }
      }
    }
  }

  /** Holder of the shared instance `getInstance` hands out. */
  class ClipboardRegistry {
    var instance: ClipboardService?

    constructor ()
      ensures instance == null
    {
      instance := null;
    }

    /** `getInstance()`: the same object on every call, created without
        options the first time. */
    method GetInstance() returns (service: ClipboardService)
      modifies this
      ensures old(instance) != null ==> service == old(instance)
      ensures old(instance) == null ==>
        fresh(service) && service.listeners == [] && !service.isListening && service.lastCopiedText == ""
      ensures instance == service
    {
      if instance == null {
        instance := new ClipboardService(None);
      }
      service := instance;
    }
  }

  /** Two reads of the shared instance return the same object. */
  method GetInstanceTwice(registry: ClipboardRegistry) returns (first: ClipboardService, second: ClipboardService)
    modifies registry
    ensures first == second
  {
    first := registry.GetInstance();
    second := registry.GetInstance();
  }
}
