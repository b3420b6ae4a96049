/** The string rules of the `!edit` command: recognising it, extracting the prompt
    (Python's `content[5:].strip()`) and naming the thread opened for it. */
module Commands {

  /** Python's `str.isspace` for one code point: the characters `strip()` removes. */
  predicate IsSpace(c: char) {
    || ('\t' <= c <= '\r')
    || ('\U{1C}' <= c <= ' ')
    || c == '\U{85}' || c == '\U{A0}' || c == '\U{1680}'
    || ('\U{2000}' <= c <= '\U{200A}')
    || c == '\U{2028}' || c == '\U{2029}' || c == '\U{202F}' || c == '\U{205F}' || c == '\U{3000}'
  }

  predicate AllSpace(s: string) {
    forall k :: 0 <= k < |s| ==> IsSpace(s[k])
  }

  /** Neither the first nor the last character is white space. */
  predicate NoEdgeSpace(s: string) {
    s == [] || (!IsSpace(s[0]) && !IsSpace(s[|s| - 1]))
  }

  /** The number of white-space characters `s` starts with. */
  function LeadingSpaces(s: string): (n: nat)
    ensures n <= |s|
    ensures forall k :: 0 <= k < n ==> IsSpace(s[k])
    ensures n < |s| ==> !IsSpace(s[n])
  {
    if s == [] || !IsSpace(s[0]) then 0 else 1 + LeadingSpaces(s[1..])
  }

  /** The number of white-space characters `s` ends with. */
  function TrailingSpaces(s: string): (n: nat)
    ensures n <= |s|
    ensures forall k :: |s| - n <= k < |s| ==> IsSpace(s[k])
    ensures n < |s| ==> !IsSpace(s[|s| - 1 - n])
  {
    if s == [] || !IsSpace(s[|s| - 1]) then 0 else 1 + TrailingSpaces(s[..|s| - 1])
  }

  /** Python's `s.strip()`: `s` without its leading and trailing white space. */
  function Strip(s: string): (r: string)
    ensures NoEdgeSpace(r)
    ensures LeadingSpaces(s) + |r| <= |s|
    ensures r == s[LeadingSpaces(s)..LeadingSpaces(s) + |r|]
    ensures AllSpace(s[LeadingSpaces(s) + |r|..])
  {
    var t := s[LeadingSpaces(s)..];
    t[..|t| - TrailingSpaces(t)]
  }

  /** Any split of `s` into white space, a core without white space at either end,
      and white space, has `Strip(s)` as its core. */
  lemma StripUnique(s: string, a: string, r: string, b: string)
    requires s == a + r + b
    requires AllSpace(a) && AllSpace(b) && NoEdgeSpace(r)
    ensures Strip(s) == r
  {
    var i := LeadingSpaces(s);
    if r == [] {
      assert AllSpace(s) by {
        forall k | 0 <= k < |s| ensures IsSpace(s[k]) {
          if k < |a| { assert s[k] == a[k]; } else { assert s[k] == b[k - |a|]; }
        }
      }
    } else {
      assert s[|a|] == r[0];
      var t := s[i..];
      assert t == r + b;
      var n := TrailingSpaces(t);
      assert t[|r| - 1] == r[|r| - 1];
      assert t[..|t| - n] == r;
    }
  }

  /** Stripping twice strips nothing more. */
  lemma StripIdempotent(s: string)
    ensures Strip(Strip(s)) == Strip(s)
  {
    var r := Strip(s);
    assert r == [] + r + [];
    StripUnique(r, [], r, []);
  }

  /** Python's `s[n:]`: empty when `s` is shorter than `n`. */
  function Drop(s: string, n: nat): (r: string)
    ensures |r| == if n <= |s| then |s| - n else 0
    ensures forall k :: 0 <= k < |r| ==> r[k] == s[n + k]
  {
    if n <= |s| then s[n..] else []
  }

  /** Python's `s[:n]`: all of `s` when it is shorter than `n`. */
  function Take(s: string, n: nat): (r: string)
    ensures |r| == if n <= |s| then n else |s|
    ensures r <= s
  {
    if n <= |s| then s[..n] else s
  }

  const EditToken: string := "!edit"

  /** Python's `str.lower()` on one ASCII letter; every other character is kept. */
  function LowerAscii(c: char): char {
    if 'A' <= c <= 'Z' then (c as int - 'A' as int + 'a' as int) as char else c
  }

  /** `content.lower().startswith("!edit")`, tested on the first five characters one
      by one. Apart from the ASCII letters, only U+0130 lower-cases to something
      starting with one of `e`, `d`, `i`, `t`: it becomes `i` followed by U+0307.
      An `i` is wanted only at index 3, and U+0307 would then take the place of
      the `t`, so it never matches; `!` has no case. */
  predicate IsEditCommand(content: string) {
    |content| >= |EditToken| && forall k :: 0 <= k < |EditToken| ==> LowerAscii(content[k]) == EditToken[k]
  }

  /** `s.lower()`, as far as the command test can tell: ASCII letters lower-cased. */
  function Lower(s: string): (r: string)
    ensures |r| == |s|
    ensures forall k :: 0 <= k < |s| ==> r[k] == LowerAscii(s[k])
  {
    if s == [] then [] else [LowerAscii(s[0])] + Lower(s[1..])
  }

  /** The character-by-character test is `lower().startswith("!edit")`, both ways. */
  lemma EditCommandIsLowerPrefix(content: string)
    ensures IsEditCommand(content) <==> EditToken <= Lower(content)
  {
    var l := Lower(content);
    if IsEditCommand(content) {
      assert l[..|EditToken|] == EditToken;
    }
    if EditToken <= l {
      forall k | 0 <= k < |EditToken| ensures LowerAscii(content[k]) == EditToken[k] {
        assert l[k] == EditToken[k];
      }
    }
  }

  /** The instruction text after the command token: `content[5:].strip()`. */
  function ExtractPrompt(content: string): (prompt: string)
    ensures NoEdgeSpace(prompt)
    ensures |content| <= |EditToken| ==> prompt == []
    ensures |content| > |EditToken| ==>
              var rest := content[|EditToken|..];
              var i := LeadingSpaces(rest);
              && i + |prompt| <= |rest|
              && AllSpace(rest[..i]) && prompt == rest[i..i + |prompt|] && AllSpace(rest[i + |prompt|..])
  {
    Strip(Drop(content, |EditToken|))
  }

  /** The command is matched case-insensitively, at the very start of the content. */
  lemma CommandRecognised()
    ensures IsEditCommand("!EdIt make it blue")
    ensures !IsEditCommand("!edi") && !IsEditCommand(" !edit x")
  {
    assert EditToken == ['!', 'e', 'd', 'i', 't'];
    assert " !edit x"[0] == ' ' && LowerAscii(' ') != '!';
  }

  /** The prompt is what follows the token, trimmed. */
  lemma {:induction false} PromptExample()
    ensures ExtractPrompt("!edit make it blue") == "make it blue"
  {
    var c := "!edit make it blue";
    assert c[5..] == " " + "make it blue" + "";
    assert NoEdgeSpace("make it blue");
    StripUnique(c[5..], " ", "make it blue", "");
  }

  /** No space is needed between the token and the prompt. */
  lemma {:induction false} PromptWithoutSpace()
    ensures ExtractPrompt("!editfoo") == "foo"
  {
    var c := "!editfoo";
    assert c[5..] == [] + "foo" + [];
    StripUnique(c[5..], [], "foo", []);
  }

  /** A bare token gives the empty prompt. */
  lemma {:induction false} BareTokenPrompt()
    ensures ExtractPrompt("!edit") == ""
  {
    assert Drop("!edit", 5) == [];
    StripUnique("", "", "", "");
  }

  /** So does a token followed only by white space. */
  lemma {:induction false} BlankPrompt()
    ensures ExtractPrompt("!edit \t ") == ""
  {
    assert Drop("!edit \t ", 5) == " \t " + "" + "";
    StripUnique(" \t ", " \t ", "", "");
  }

  const ThreadPrefix: string := "Image Edit: "
  const NameLimit: nat := 20

  /** The name of the thread opened for a top-level request: the prompt, cut to
      twenty characters and marked with "..." when it was cut. */
  function ThreadName(prompt: string): (name: string)
    ensures |name| <= |ThreadPrefix| + NameLimit + 3
    ensures ThreadPrefix <= name
    ensures |prompt| <= NameLimit ==> name == ThreadPrefix + prompt
    ensures |prompt| > NameLimit ==> name == ThreadPrefix + prompt[..NameLimit] + "..."
  {
    ThreadPrefix + Take(prompt, NameLimit) + (if |prompt| > NameLimit then "..." else "")
  }

  /** Two prompts give the same thread name exactly when they agree on their first
      twenty characters and are either both cut or both kept whole. */
  lemma ThreadNameSame(p: string, q: string)
    ensures ThreadName(p) == ThreadName(q)
        <==> Take(p, NameLimit) == Take(q, NameLimit) && (|p| > NameLimit <==> |q| > NameLimit)
  {
    var n, m := ThreadName(p), ThreadName(q);
    if n == m {
      // a cut name has 35 characters, a whole one at most 32
      assert (|p| > NameLimit <==> |q| > NameLimit) by {
        assert |p| > NameLimit ==> |n| == |ThreadPrefix| + NameLimit + 3;
        assert |q| > NameLimit ==> |m| == |ThreadPrefix| + NameLimit + 3;
      }
      var k := |Take(p, NameLimit)|;
      assert |Take(q, NameLimit)| == k;
      assert Take(p, NameLimit) == n[|ThreadPrefix|..|ThreadPrefix| + k];
      assert Take(q, NameLimit) == m[|ThreadPrefix|..|ThreadPrefix| + k];
    }
  }
}
