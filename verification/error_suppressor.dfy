/*
 * The browser's console and error filter: a fixed list of noise patterns,
 * console methods that drop messages matching them unless debugging is on,
 * the `appDebug` switch, the global error and rejection handlers, and a
 * `JSON.parse` that never throws.
 */
module ErrorSuppressor {
  import opened Js

  /** `errorPatterns`. */
  const ErrorPatterns: seq<string> := [
    "cssRules",
    "CSSStyleSheet",
    "Cannot access rules",
    "Failed to read",
    "SecurityError",
    "message port closed",
    "Unchecked runtime.lastError",
    "inspector",
    "@reduxjs/toolkit",
    "Refused to execute script",
    "MIME type",
    "Failed to load resource",
    "[object Object] is not valid JSON",
    "Manifest:",
    "site.webmanifest"
  ]

  /** `patterns.some(pattern => message.includes(pattern))`. */
  function AnyPatternIn(message: string, patterns: seq<string>): bool
    decreases |patterns|
  {
    |patterns| > 0 && (Contains(message, patterns[0]) || AnyPatternIn(message, patterns[1..]))
  }

  /** `some` holds exactly when one of the patterns occurs in the message. */
  lemma {:induction false} AnyPatternInIff(message: string, patterns: seq<string>)
    ensures AnyPatternIn(message, patterns) <==>
      exists j, i :: 0 <= j < |patterns| && OccursAt(message, patterns[j], i)
    decreases |patterns|
  {
    if |patterns| > 0 {
      ContainsIff(message, patterns[0]);
      AnyPatternInIff(message, patterns[1..]);
      if exists j, i :: 1 <= j < |patterns| && OccursAt(message, patterns[j], i) {
        var j, i :| 1 <= j < |patterns| && OccursAt(message, patterns[j], i);
        assert patterns[1..][j - 1] == patterns[j];
      }
      if exists j, i :: 0 <= j < |patterns| - 1 && OccursAt(message, patterns[1..][j], i) {
        var j, i :| 0 <= j < |patterns| - 1 && OccursAt(message, patterns[1..][j], i);
        assert OccursAt(message, patterns[j + 1], i);
      }
    }
  }

  /** `shouldFilter(args)`: only a string first argument can be filtered. */
  function ShouldFilter(args: seq<JsValue>): (f: bool)
    ensures f ==> |args| > 0 && args[0].Str?
  {
    |args| > 0 && args[0].Str? && AnyPatternIn(args[0].s, ErrorPatterns)
  }

  /** A console call is filtered exactly when its first argument is a string
      in which some pattern occurs; later arguments play no part. */
  lemma ShouldFilterIff(args: seq<JsValue>)
    ensures ShouldFilter(args) <==>
      |args| > 0 && args[0].Str? &&
      exists j, i :: 0 <= j < |ErrorPatterns| && OccursAt(args[0].s, ErrorPatterns[j], i)
    ensures |args| > 0 ==> ShouldFilter(args) == ShouldFilter(args[..1])
  {
    if |args| > 0 && args[0].Str? {
      AnyPatternInIff(args[0].s, ErrorPatterns);
    }
  }

  /** A patched console method passes a call on when debugging is on or the
      call is not noise. */
  function Forwards(debugEnabled: bool, args: seq<JsValue>): (forward: bool)
    ensures !debugEnabled && |args| > 0 && args[0].Str? && Contains(args[0].s, "SecurityError") ==> !forward
    ensures debugEnabled || |args| == 0 || !args[0].Str? ==> forward
  {
    debugEnabled || !ShouldFilter(args)
  }

  /** The console methods that are patched. */
  datatype Level = Log | Warn | Error | Info | Debug

  /** One call that reached the original console. */
  datatype Line = Line(level: Level, args: seq<JsValue>)

  /** The patched console, the `window.debugEnabled` flag it reads and the
      lines that reached the original console methods. */
  class Console {
    var debugEnabled: bool
    var emitted: seq<Line>

    /** Installation: debugging starts disabled. */
    constructor()
      ensures !debugEnabled && emitted == []
    {
      debugEnabled := false;
      emitted := [];
    }

    /** `console.log`, `warn`, `error`, `info` or `debug` after patching. */
    method Call(level: Level, args: seq<JsValue>)
      modifies this`emitted
      ensures emitted == old(emitted) + (if Forwards(debugEnabled, args) then [Line(level, args)] else [])
    {
      if debugEnabled || !ShouldFilter(args) {
        emitted := emitted + [Line(level, args)];
      }
    }

    /** `appDebug.enable()`. */
    method Enable()
      modifies this
      ensures debugEnabled
      ensures emitted == old(emitted) + [Line(Log, [Str("Debug mode enabled")])]
    {
      debugEnabled := true;
      emitted := emitted + [Line(Log, [Str("Debug mode enabled")])];
    }

    /** `appDebug.disable()`. */
    method Disable()
      modifies this
      ensures !debugEnabled
      ensures emitted == old(emitted) + [Line(Log, [Str("Debug mode disabled")])]
    {
      debugEnabled := false;
      emitted := emitted + [Line(Log, [Str("Debug mode disabled")])];
    }

    /** `appDebug.log(...)`: emits only while debugging is on, filtered or not. */
    method DebugLog(args: seq<JsValue>)
      modifies this`emitted
      ensures emitted == old(emitted) + (if debugEnabled then [Line(Log, args)] else [])
    {
      if debugEnabled {
        emitted := emitted + [Line(Log, args)];
      }
    }

    /** The keydown listener: Ctrl+Shift+D flips debugging through `appDebug`. */
    method KeyDown(ctrlKey: bool, shiftKey: bool, key: string)
      modifies this
      ensures ctrlKey && shiftKey && key == "D" ==>
        debugEnabled == !old(debugEnabled) &&
        emitted == old(emitted) +
          [Line(Log, [Str(if old(debugEnabled) then "Debug mode disabled" else "Debug mode enabled")])]
      ensures !(ctrlKey && shiftKey && key == "D") ==> debugEnabled == old(debugEnabled) && emitted == old(emitted)
    {
      if ctrlKey && shiftKey && key == "D" {
        if debugEnabled {
          Disable();
        } else {
          Enable();
        }
      }
    }
  }

  // ---------------------------------------------------------------------------
  // Global handlers
  // ---------------------------------------------------------------------------

  /** The `error` listener calls `preventDefault` when a pattern occurs in the
      event's message or file name (an absent one is ""). Its return value is
      not read by the browser. */
  function SuppressError(message: string, filename: string): (suppress: bool)
    ensures suppress <==>
      exists j :: 0 <= j < |ErrorPatterns| &&
        (Contains(message, ErrorPatterns[j]) || Contains(filename, ErrorPatterns[j]))
  {
    PatternInEither(message, filename, ErrorPatterns);
    AnyPatternIn(message, ErrorPatterns) || AnyPatternIn(filename, ErrorPatterns)
  }

  /** `some` over a disjunction splits into two `some`s. */
  lemma {:induction false} PatternInEither(a: string, b: string, patterns: seq<string>)
    ensures (AnyPatternIn(a, patterns) || AnyPatternIn(b, patterns)) <==>
      exists j :: 0 <= j < |patterns| && (Contains(a, patterns[j]) || Contains(b, patterns[j]))
    decreases |patterns|
  {
    if |patterns| > 0 {
      PatternInEither(a, b, patterns[1..]);
      if exists j :: 1 <= j < |patterns| && (Contains(a, patterns[j]) || Contains(b, patterns[j])) {
        var j :| 1 <= j < |patterns| && (Contains(a, patterns[j]) || Contains(b, patterns[j]));
        assert patterns[1..][j - 1] == patterns[j];
      }
      if exists j :: 0 <= j < |patterns| - 1 && (Contains(a, patterns[1..][j]) || Contains(b, patterns[1..][j])) {
        var j :| 0 <= j < |patterns| - 1 && (Contains(a, patterns[1..][j]) || Contains(b, patterns[1..][j]));
        assert patterns[1..][j] == patterns[j + 1];
      }
    }
  }

  /** The reason of an unhandled rejection: none (or a falsy one), a string,
      or an object with a `message` (an absent message is ""). */
  datatype Reason = NoReason | ReasonString(text: string) | ReasonObject(message: string)

  /** The `unhandledrejection` listener calls `preventDefault` when a pattern
      occurs in a string reason or in the reason's message. */
  function SuppressRejection(reason: Reason): (suppress: bool)
    ensures reason.NoReason? ==> !suppress
    ensures reason.ReasonString? ==> (suppress <==> AnyPatternIn(reason.text, ErrorPatterns))
    ensures reason.ReasonObject? ==> (suppress <==> AnyPatternIn(reason.message, ErrorPatterns))
  {
    match reason
    case NoReason => false
    case ReasonString(text) => AnyPatternIn(text, ErrorPatterns)
    case ReasonObject(message) => AnyPatternIn(message, ErrorPatterns)
  }

  // ---------------------------------------------------------------------------
  // JSON.parse
  // ---------------------------------------------------------------------------

  /** The patched `JSON.parse(text)`. `original` is the built-in parser on the
      string form of its argument (None when it throws) and `empty` stands
      for `{}`. The three known-bad inputs and every parse error give `{}`. */
  function PatchedJsonParse<T>(text: JsValue, original: string -> Option<T>, empty: T): (v: T)
    ensures text == Str("[object Object]") || text == Undefined || text == Null ==> v == empty
    ensures original(ToJsString(text)).None? ==> v == empty
    ensures (text != Str("[object Object]") && text != Undefined && text != Null &&
             original(ToJsString(text)).Some?) ==> v == original(ToJsString(text)).value
  {
    if text == Str("[object Object]") || text == Undefined || text == Null then empty
    else
      match original(ToJsString(text))
      case None => empty
      case Some(parsed) => parsed
  }
}
