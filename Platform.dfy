/** JVM and Android values the app's Kotlin code handles: nullable references,
    exceptions and their string form, and intents that carry string extras. */
module Platform {

  /** A nullable Kotlin reference: `None` stands for `null`. */
  datatype Option<+T> = None | Some(value: T)

  /** Kotlin's `s.orEmpty()`: a null string reads as the empty string. */
  function OrEmpty(s: Option<string>): string
  {
    match s
    case Some(t) => t
    case None => ""
  }

  /** Java's string conversion of a possibly null `String`, as used by string
      concatenation (`a + b` with `b == null`) and by `StringBuilder.append`:
      a null reference becomes the four letters "null". */
  function JavaString(s: Option<string>): string
  {
    match s
    case Some(t) => t
    case None => "null"
  }

  /** Concatenation of strings and lists is associative. */
  lemma AppendAssociates<T>(a: seq<T>, b: seq<T>, c: seq<T>)
    ensures a + (b + c) == (a + b) + c
  {
  }

  /** A JVM class name is never empty. */
  type ClassName = s: string | |s| > 0 witness "java.lang.Exception"

  /** An exception, reduced to what `toString()` shows of it. */
  datatype Throwable = Throwable(className: ClassName, message: Option<string>)
  {
    /** `Throwable.toString()`: the class name, then ": " and the message when
        there is one. It is never empty and always starts with the class name. */
    function ToString(): (s: string)
      ensures |s| > 0
      ensures className <= s
    {
      if message.Some? then className + ": " + message.value else className
    }
  }

  /** The outcome of a call that may throw. */
  datatype Result<+T> = Ok(value: T) | Err(error: Throwable)

  /** An Android intent, reduced to its string extras; an extra put with a
      null value reads back as null, the same as an absent one. */
  datatype Intent = Intent(extras: map<string, string>)
  {
    /** `intent.getStringExtra(key)` */
    function GetStringExtra(key: string): (r: Option<string>)
      ensures r.Some? <==> key in extras
      ensures r.Some? ==> r.value == extras[key]
    {
      if key in extras then Some(extras[key]) else None
    }
  }
}
