/** The call-data encoder used to build wallet transactions
    (test/helpers/utils.js): a 4-byte function selector followed by the
    static arguments, each as hexadecimal digits left-padded with '0'.

    Keccak-256 (`web3.sha3`) and the number-to-hex conversion
    (`web3.toHex`) are library calls outside the model; they enter as
    function parameters `sha3` and `toHex`, about which nothing is assumed. */
module Encoding {

  /** The signature with every space character removed (JavaScript
      `replace(/ /g, '')`: only U+0020, not other white space). */
  function StripSpaces(s: string): (r: string)
    ensures ' ' !in r
    ensures |r| <= |s|
  {
    if s == [] then []
    else (if s[0] == ' ' then [] else [s[0]]) + StripSpaces(s[1..])
  }

  lemma {:induction false} StripSpacesConcat(a: string, b: string)
    ensures StripSpaces(a + b) == StripSpaces(a) + StripSpaces(b)
  {
    if a == [] {
      assert a + b == b;
    } else {
      assert (a + b)[0] == a[0];
      assert (a + b)[1..] == a[1..] + b;
      StripSpacesConcat(a[1..], b);
    }
  }

  /** A string without spaces is left as it is, so stripping is idempotent. */
  lemma {:induction false} StripSpacesNoSpaces(s: string)
    requires ' ' !in s
    ensures StripSpaces(s) == s
  {
    if s != [] {
      assert s[0] != ' ';
      assert ' ' !in s[1..] by {
        forall i | 0 <= i < |s[1..]| ensures s[1..][i] != ' ' {
          assert s[1..][i] == s[i + 1];
        }
      }
      StripSpacesNoSpaces(s[1..]);
    }
  }

  /** JavaScript `s.slice(0, n)`: the first n characters, or all of s. */
  function Take(s: string, n: nat): string
  {
    if |s| <= n then s else s[..n]
  }

  /** JavaScript `s.slice(n)`: everything from position n on, or "". */
  function Drop(s: string, n: nat): string
  {
    if |s| <= n then [] else s[n..]
  }

  /** getFunctionSelector: the first 10 characters of the hash of the
      space-free signature. */
  function Selector(sha3: string -> string, signature: string): (r: string)
    ensures |r| <= 10
    ensures r <= sha3(StripSpaces(signature))
    ensures |sha3(StripSpaces(signature))| >= 10 ==> |r| == 10
  {
    Take(sha3(StripSpaces(signature)), 10)
  }

  /** Inserting a space anywhere in a signature does not change its
      selector, so signatures that differ only in spaces agree. */
  lemma SelectorIgnoresSpaces(sha3: string -> string, before: string, after: string)
    ensures Selector(sha3, before + " " + after) == Selector(sha3, before + after)
  {
    var b, a := StripSpaces(before), StripSpaces(after);
    assert StripSpaces(" ") == [] by {
      assert " "[0] == ' ' && " "[1..] == [];
    }
    StripSpacesConcat(before, " ");
    assert StripSpaces(before + " ") == b;
    StripSpacesConcat(before + " ", after);
    assert StripSpaces(before + " " + after) == b + a;
    StripSpacesConcat(before, after);
  }

  predicate IsHexDigit(c: char)
  {
    '0' <= c <= '9' || 'a' <= c <= 'f' || 'A' <= c <= 'F'
  }

  /** The shape of a Keccak-256 result as web3 prints it: "0x" and 64 hex digits. */
  predicate IsHashString(h: string)
  {
    |h| == 66 && h[..2] == "0x" && forall i :: 2 <= i < 66 ==> IsHexDigit(h[i])
  }

  /** On a well-formed hash the selector is "0x" and 8 hex digits: 4 bytes. */
  lemma SelectorIsFourBytes(sha3: string -> string, signature: string)
    requires IsHashString(sha3(StripSpaces(signature)))
    ensures var r := Selector(sha3, signature);
      |r| == 10 && r[..2] == "0x" && forall i :: 2 <= i < 10 ==> IsHexDigit(r[i])
  {
    var h := sha3(StripSpaces(signature));
    assert Selector(sha3, signature) == h[..10];
  }

  /** Number of '0' characters that bring a length of n up to the next
      multiple of 64. */
  function ZeroCount(n: nat): nat
  {
    (64 - n % 64) % 64
  }

  function Zeros(k: nat): (r: string)
    ensures |r| == k && forall i :: 0 <= i < k ==> r[i] == '0'
  {
    seq(k, i => '0')
  }

  /** The hex digits of one argument left-padded with '0' to a multiple
      of 64 characters (the reference definition the loop is proved against). */
  function Padded(hex: string): string
  {
    Zeros(ZeroCount(|hex|)) + hex
  }

  /** What padding promises: the length is a multiple of 64 and the least
      such length that holds the digits, only '0' is prepended, the digits
      come last, and already aligned input (also "") is unchanged. */
  lemma PaddedIsMinimalZeroPadding(hex: string)
    ensures var r := Padded(hex);
      && |r| % 64 == 0
      && |hex| <= |r| < |hex| + 64
      && (forall m: nat :: m % 64 == 0 && |hex| <= m ==> |r| <= m)
      && r[|r| - |hex|..] == hex
      && (forall i :: 0 <= i < |r| - |hex| ==> r[i] == '0')
      && (|hex| % 64 == 0 ==> r == hex)
  {
    var r := Padded(hex);
    var n := |hex|;
    assert |r| == n + ZeroCount(n);
    forall m: nat | m % 64 == 0 && n <= m ensures |r| <= m {
      if n % 64 != 0 {
        assert |r| == (n / 64 + 1) * 64;
        assert m / 64 > n / 64;
      }
    }
    assert r[|r| - n..] == hex;
  }

  lemma PaddedLengthAligned(hex: string)
    ensures |Padded(hex)| == |hex| + ZeroCount(|hex|)
    ensures |Padded(hex)| % 64 == 0
  {
  }

  /** The padding loop of getFunctionEncoding: prepend '0' until the
      length is a multiple of 64. */
  method PadArgument(hex: string) returns (padded: string)
    ensures padded == Padded(hex)
  {
    padded := hex;
    while |padded| % 64 != 0
      invariant |hex| <= |padded| <= |hex| + ZeroCount(|hex|)
      invariant padded == Zeros(|padded| - |hex|) + hex
      decreases |hex| + ZeroCount(|hex|) - |padded|
    {
      assert |padded| < |hex| + ZeroCount(|hex|);
      padded := "0" + padded;
    }
    assert |padded| == |hex| + ZeroCount(|hex|);
  }

  /** The digits `web3.toHex(arg).slice(2)` of one argument. */
  function HexDigits<A>(toHex: A -> string, arg: A): string
  {
    Drop(toHex(arg), 2)
  }

  /** The padded arguments concatenated in argument order. */
  function EncodedArgs<A>(toHex: A -> string, args: seq<A>): string
  {
    if args == [] then []
    else EncodedArgs(toHex, args[..|args| - 1]) + Padded(HexDigits(toHex, args[|args| - 1]))
  }

  /** Sum of the padded argument lengths. */
  function PaddedLength<A>(toHex: A -> string, args: seq<A>): nat
  {
    if args == [] then 0
    else PaddedLength(toHex, args[..|args| - 1]) + |Padded(HexDigits(toHex, args[|args| - 1]))|
  }

  lemma EncodedArgsLast<A>(toHex: A -> string, args: seq<A>)
    requires args != []
    ensures EncodedArgs(toHex, args)
         == EncodedArgs(toHex, args[..|args| - 1]) + Padded(HexDigits(toHex, args[|args| - 1]))
  {
  }

  /** The argument section is the padded arguments of any split of the
      argument list, one after the other. */
  lemma {:induction false} EncodedArgsConcat<A>(toHex: A -> string, xs: seq<A>, ys: seq<A>)
    ensures EncodedArgs(toHex, xs + ys) == EncodedArgs(toHex, xs) + EncodedArgs(toHex, ys)
    decreases |ys|
  {
    if ys == [] {
      assert xs + ys == xs;
    } else {
      var zs, init := xs + ys, ys[..|ys| - 1];
      assert zs[..|zs| - 1] == xs + init;
      assert zs[|zs| - 1] == ys[|ys| - 1];
      EncodedArgsLast(toHex, zs);
      EncodedArgsLast(toHex, ys);
      EncodedArgsConcat(toHex, xs, init);
    }
  }

  /** The argument section is as long as the padded arguments together,
      and so is a multiple of 64 characters long. */
  lemma {:induction false} EncodedArgsLength<A>(toHex: A -> string, args: seq<A>)
    ensures |EncodedArgs(toHex, args)| == PaddedLength(toHex, args)
    ensures |EncodedArgs(toHex, args)| % 64 == 0
  {
    if args != [] {
      var init, last := args[..|args| - 1], args[|args| - 1];
      EncodedArgsLength(toHex, init);
      PaddedLengthAligned(HexDigits(toHex, last));
      AlignedSum(|EncodedArgs(toHex, init)|, |Padded(HexDigits(toHex, last))|);
    }
  }

  lemma AlignedSum(a: nat, b: nat)
    requires a % 64 == 0 && b % 64 == 0
    ensures (a + b) % 64 == 0
  {
    assert a + b == 64 * (a / 64 + b / 64);
  }

  /** Arguments of 1 to 64 hex digits: the static 32-byte words of the
      contract ABI. */
  predicate AllWords<A>(toHex: A -> string, args: seq<A>)
  {
    forall k :: 0 <= k < |args| ==> 0 < |HexDigits(toHex, args[k])| <= 64
  }

  lemma OneWord(hex: string)
    requires 0 < |hex| <= 64
    ensures |Padded(hex)| == 64
  {
    if |hex| < 64 {
      assert ZeroCount(|hex|) == 64 - |hex|;
    }
  }

  lemma {:induction false} WordsLength<A>(toHex: A -> string, args: seq<A>)
    requires AllWords(toHex, args)
    ensures |EncodedArgs(toHex, args)| == 64 * |args|
  {
    if args != [] {
      var n := |args|;
      assert AllWords(toHex, args[..n - 1]) by {
        forall k | 0 <= k < n - 1 ensures args[..n - 1][k] == args[k] { }
      }
      WordsLength(toHex, args[..n - 1]);
      OneWord(HexDigits(toHex, args[n - 1]));
    }
  }

  /** With one-word arguments, argument i fills exactly characters 64i
      up to 64i+64 of the argument section. */
  lemma {:induction false} EncodedArgsWords<A>(toHex: A -> string, args: seq<A>, i: nat)
    requires AllWords(toHex, args)
    requires i < |args|
    ensures |EncodedArgs(toHex, args)| == 64 * |args|
    ensures EncodedArgs(toHex, args)[64 * i .. 64 * i + 64] == Padded(HexDigits(toHex, args[i]))
  {
    var n := |args|;
    var init := args[..n - 1];
    assert AllWords(toHex, init) by {
      forall k | 0 <= k < n - 1 ensures init[k] == args[k] { }
    }
    WordsLength(toHex, args);
    WordsLength(toHex, init);
    var front, word := EncodedArgs(toHex, init), Padded(HexDigits(toHex, args[n - 1]));
    if i < n - 1 {
      EncodedArgsWords(toHex, init, i);
      assert init[i] == args[i];
      assert (front + word)[64 * i .. 64 * i + 64] == front[64 * i .. 64 * i + 64];
    } else {
      assert (front + word)[64 * i ..] == word;
    }
  }

  /** getFunctionEncoding: the selector followed by every argument's
      padded hex digits, in order. */
  method FunctionEncoding<A>(sha3: string -> string, toHex: A -> string, signature: string, args: seq<A>)
    returns (data: string)
    ensures data == Selector(sha3, signature) + EncodedArgs(toHex, args)
    ensures args == [] ==> data == Selector(sha3, signature)
    ensures |data| == |Selector(sha3, signature)| + PaddedLength(toHex, args)
    ensures |sha3(StripSpaces(signature))| >= 10 ==> |data| == 10 + PaddedLength(toHex, args)
  {
    var selector := Selector(sha3, signature);
    var argString := "";
    for i := 0 to |args|
      invariant argString == EncodedArgs(toHex, args[..i])
    {
      var paddedArg := PadArgument(HexDigits(toHex, args[i]));
      assert args[..i + 1][..i] == args[..i];
      argString := argString + paddedArg;
    }
    assert args[..|args|] == args;
    data := selector + argString;
    EncodedArgsLength(toHex, args);
  }
}
