/** Where a conversation's files live: `logging/<thread id>/`, with the thread id
    written in decimal, and the names of the edited images inside it. */
module Paths {

  predicate AllDigits(s: string) {
    forall k :: 0 <= k < |s| ==> '0' <= s[k] <= '9'
  }

  function Digit(d: nat): (c: char)
    requires d < 10
    ensures '0' <= c <= '9' && c as int - '0' as int == d
  {
    (d + '0' as int) as char
  }

  /** Python's `str(n)` for a natural number. */
  function Decimal(n: nat): (s: string)
    ensures 1 <= |s| && AllDigits(s)
    ensures s[0] == '0' ==> s == "0"
  {
    if n < 10 then [Digit(n)] else Decimal(n / 10) + [Digit(n % 10)]
  }

  /** The number a string of decimal digits denotes. */
  function Value(s: string): nat
    requires AllDigits(s)
  {
    if s == [] then 0 else 10 * Value(s[..|s| - 1]) + (s[|s| - 1] as int - '0' as int)
  }

  /** Reading back what `Decimal` wrote gives the number. */
  lemma {:induction false} DecimalRoundTrip(n: nat)
    ensures Value(Decimal(n)) == n
  {
    if n >= 10 {
      var s := Decimal(n);
      assert s[..|s| - 1] == Decimal(n / 10);
      DecimalRoundTrip(n / 10);
    }
  }

  lemma DecimalInjective(a: nat, b: nat)
    requires Decimal(a) == Decimal(b)
    ensures a == b
  {
    DecimalRoundTrip(a);
    DecimalRoundTrip(b);
  }

  const LogRoot: string := "logging/"

  /** `f"logging/{thread_id}"`. */
  function ThreadDir(id: nat): (dir: string)
    ensures LogRoot <= dir && |dir| > |LogRoot|
    ensures AllDigits(dir[|LogRoot|..]) && Value(dir[|LogRoot|..]) == id
  {
    DecimalRoundTrip(id);
    LogRoot + Decimal(id)
  }

  /** Distinct conversations get distinct directories, so keying the log by
      conversation id loses nothing. */
  lemma ThreadDirInjective(a: nat, b: nat)
    requires ThreadDir(a) == ThreadDir(b)
    ensures a == b
  {
    DecimalInjective(a, b);
  }

  /** The base name handed to the Gemini editor; the editor appends the extension. */
  function GeminiOutput(thread: nat, stamp: string): string {
    ThreadDir(thread) + "/edited_image_gemini_" + stamp
  }

  /** The file the OpenAI editor writes. */
  function OpenAIOutput(thread: nat, stamp: string): string {
    ThreadDir(thread) + "/edited_image_openai_" + stamp + ".png"
  }

  /** Both output names lie in the conversation's own directory, and they differ. */
  lemma OutputsInThreadDir(thread: nat, stamp: string)
    ensures ThreadDir(thread) + "/" <= GeminiOutput(thread, stamp)
    ensures ThreadDir(thread) + "/" <= OpenAIOutput(thread, stamp)
    ensures GeminiOutput(thread, stamp) != OpenAIOutput(thread, stamp)
  {
    var d := ThreadDir(thread);
    var g, o := GeminiOutput(thread, stamp), OpenAIOutput(thread, stamp);
    assert g[|d| + 14] == 'g' && o[|d| + 14] == 'o';
  }
}
