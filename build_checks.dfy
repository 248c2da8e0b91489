/**
 * The compile-time checks of the stack configuration, evaluated as the C
 * preprocessor evaluates them. Each THREADk_STACK_SIZE macro is either
 * defined with a value or not defined; inside an `#if` expression an
 * undefined macro counts as 0. TOTAL_STACK_SIZE is the token sequence its
 * definition expands to, and the RAM check can only be evaluated when that
 * sequence is a well-formed sum.
 *
 * The checks as written reject two kinds of build that the configuration
 * rules allow: any build with three threads, and any build that leaves the
 * size macro of an unused thread undefined. The checks as evidently intended
 * are Stacks.ValidConfig, which the rest of the model uses.
 */
module BuildChecks {
  import opened Masks
  import opened Stacks

  datatype Option<T> = None | Some(value: T)

  /** MAX_THREADS and THREAD0..THREAD7_STACK_SIZE, each size defined with a value or not. */
  datatype Macros = Macros(maxThreads: int, sizeMacros: seq<Option<nat>>)

  /** THREADk_STACK_SIZE is defined. */
  predicate SizeDefined(m: Macros, k: nat) {
    k < |m.sizeMacros| && m.sizeMacros[k].Some?
  }

  /** The value of THREADk_STACK_SIZE inside an `#if`: 0 when it is not defined. */
  function SizeValue(m: Macros, k: nat): nat {
    if SizeDefined(m, k) then m.sizeMacros[k].value else 0
  }

  /** The sizes of threads 0..n-1 as the `#if` expressions see them. */
  function SizeValues(m: Macros, n: nat): seq<nat> {
    if n == 0 then [] else SizeValues(m, n - 1) + [SizeValue(m, n - 1)]
  }

  /** Entry k of SizeValues is the value of THREADk_STACK_SIZE. */
  lemma {:induction false} SizeValuesAt(m: Macros, n: nat)
    ensures |SizeValues(m, n)| == n
    ensures forall k :: 0 <= k < n ==> SizeValues(m, n)[k] == SizeValue(m, k)
  {
    if n > 0 {
      SizeValuesAt(m, n - 1);
    }
  }

  /**
   * The `#if`/`#elif` pair for THREADk_STACK_SIZE, as written, lets the build
   * go on. The `#if` stops a build that needs the macro and lacks it: always
   * for THREAD0, when MAX_THREADS is 8 for THREAD7, and when MAX_THREADS is
   * above k otherwise. The `#elif` stops every build whose value, 0 when the
   * macro is undefined, is below MIN_STACK_SIZE, whatever MAX_THREADS is.
   */
  predicate SizeCheckAsWritten(m: Macros, k: nat)
    requires k < MASK_BITS
  {
    var needed := if k == 0 then true else if k == 7 then m.maxThreads == 8 else m.maxThreads >= k + 1;
    !(needed && !SizeDefined(m, k)) && !(SizeValue(m, k) < MIN_STACK_SIZE)
  }

  /** The size check as intended: only a configured thread's macro must be defined and large enough. */
  predicate SizeCheckIntended(m: Macros, k: nat) {
    k < m.maxThreads ==> SizeDefined(m, k) && SizeValue(m, k) >= MIN_STACK_SIZE
  }

  /** A token of a TOTAL_STACK_SIZE expansion: THREADk_STACK_SIZE or `+`. */
  datatype Token = Size(k: nat) | Plus

  /**
   * The tokens between the parentheses of TOTAL_STACK_SIZE as written, for
   * each value of MAX_THREADS. For 3 the `+` before THREAD2_STACK_SIZE is
   * missing. Any other count stops the build with `#error`: no tokens.
   */
  function TotalStackSizeTokens(n: int): seq<Token> {
    match n
    case 1 => [Size(0)]
    case 2 => [Size(0), Plus, Size(1)]
    case 3 => [Size(0), Plus, Size(1), Size(2)]
    case 4 => [Size(0), Plus, Size(1), Plus, Size(2), Plus, Size(3)]
    case 5 => [Size(0), Plus, Size(1), Plus, Size(2), Plus, Size(3), Plus, Size(4)]
    case 6 => [Size(0), Plus, Size(1), Plus, Size(2), Plus, Size(3), Plus, Size(4), Plus, Size(5)]
    case 7 => [Size(0), Plus, Size(1), Plus, Size(2), Plus, Size(3), Plus, Size(4), Plus, Size(5), Plus, Size(6)]
    case 8 => [Size(0), Plus, Size(1), Plus, Size(2), Plus, Size(3), Plus, Size(4), Plus, Size(5), Plus, Size(6), Plus, Size(7)]
    case _ => []
  }

  /** The expansion as intended: THREAD0..THREAD(n-1)_STACK_SIZE joined by `+`. */
  function SumTokens(n: nat): seq<Token> {
    if n <= 1 then (if n == 0 then [] else [Size(0)])
    else SumTokens(n - 1) + [Plus, Size(n - 1)]
  }

  /**
   * The value of a token sequence in an `#if` expression. Only the form
   * `Size (Plus Size)*` has a value; anything else is a syntax error that
   * stops the build (None).
   */
  function EvalSum(toks: seq<Token>, m: Macros): Option<nat> {
    if |toks| == 0 then None
    else match toks[|toks| - 1]
      case Plus => None
      case Size(k) =>
        if |toks| == 1 then Some(SizeValue(m, k))
        else if !toks[|toks| - 2].Plus? then None
        else match EvalSum(toks[..|toks| - 2], m)
          case None => None
          case Some(v) => Some(v + SizeValue(m, k))
  }

  /** The RAM check as written: TOTAL_STACK_SIZE can be evaluated and is below the RAM size. */
  predicate RamCheckAsWritten(m: Macros, ramStart: nat, ramEnd: nat) {
    match EvalSum(TotalStackSizeTokens(m.maxThreads), m)
    case None => false
    case Some(total) => total < ramEnd - ramStart
  }

  /** Every check of the stack configuration, as written, lets the build go on. */
  predicate BuildAcceptedAsWritten(m: Macros, ramStart: nat, ramEnd: nat) {
    ValidThreadCount(m.maxThreads) &&
    (forall k: nat :: k < MASK_BITS ==> SizeCheckAsWritten(m, k)) &&
    RamCheckAsWritten(m, ramStart, ramEnd)
  }

  /** Every check as evidently intended lets the build go on. */
  predicate BuildAcceptedIntended(m: Macros, ramStart: nat, ramEnd: nat) {
    ValidThreadCount(m.maxThreads) &&
    (forall k: nat :: k < MASK_BITS ==> SizeCheckIntended(m, k)) &&
    match EvalSum(SumTokens(m.maxThreads as nat), m)
    case None => false
    case Some(total) => total < ramEnd - ramStart
  }

  /** The stack configuration the macros describe. */
  function ConfigOf(m: Macros, ramStart: nat, ramEnd: nat, useCanary: bool): (c: StackConfig)
    requires ValidThreadCount(m.maxThreads)
    ensures c.MaxThreads() == m.maxThreads
    ensures forall k :: 0 <= k < c.MaxThreads() ==> c.sizes[k] == SizeValue(m, k)
  {
    SizeValuesAt(m, m.maxThreads as nat);
    StackConfig(ramStart, ramEnd, SizeValues(m, m.maxThreads as nat), useCanary)
  }

  /** Appending `+ THREADk_STACK_SIZE` to a sum adds that size to its value. */
  lemma EvalSumAppend(toks: seq<Token>, k: nat, m: Macros)
    requires EvalSum(toks, m).Some?
    ensures EvalSum(toks + [Plus, Size(k)], m) == Some(EvalSum(toks, m).value + SizeValue(m, k))
  {
    var t := toks + [Plus, Size(k)];
    assert t[..|t| - 2] == toks;
  }

  /** One more configured thread adds its size to the sum of the sizes. */
  lemma SumOfSizeValuesStep(m: Macros, n: nat)
    requires n >= 1
    ensures Sum(SizeValues(m, n)) == Sum(SizeValues(m, n - 1)) + SizeValue(m, n - 1)
  {
    var s := SizeValues(m, n);
    SizeValuesAt(m, n - 1);
    assert s[..n - 1] == SizeValues(m, n - 1);
  }

  /** THREAD0_STACK_SIZE alone evaluates to its own value. */
  lemma EvalSumTokensBase(m: Macros)
    ensures EvalSum(SumTokens(1), m) == Some(Sum(SizeValues(m, 1)))
  {
    SumOfSizeValuesStep(m, 1);
  }

  /** Sizes 0..n-1 joined by `+` evaluate to their sum when sizes 0..n-2 do. */
  lemma EvalSumTokensStep(n: nat, m: Macros)
    requires n >= 2
    requires EvalSum(SumTokens(n - 1), m) == Some(Sum(SizeValues(m, n - 1)))
    ensures EvalSum(SumTokens(n), m) == Some(Sum(SizeValues(m, n)))
  {
    SumOfSizeValuesStep(m, n);
    EvalSumAppend(SumTokens(n - 1), n - 1, m);
  }

  /** A well-formed sum evaluates to the sum of the sizes it names. */
  lemma {:induction false} EvalSumTokens(n: nat, m: Macros)
    requires n >= 1
    ensures EvalSum(SumTokens(n), m) == Some(Sum(SizeValues(m, n)))
  {
    if n == 1 {
      EvalSumTokensBase(m);
    } else {
      EvalSumTokens(n - 1, m);
      EvalSumTokensStep(n, m);
    }
  }

  /** The expansions as written are the intended sums for every count but three. */
  lemma TokensAsWritten(n: int)
    requires ValidThreadCount(n) && n != 3
    ensures TotalStackSizeTokens(n) == SumTokens(n)
  {
    match n
    case 1 =>
    case 2 =>
    case 4 =>
    case 5 =>
    case 6 =>
    case 7 =>
    case 8 =>
  }

  /**
   * TOTAL_STACK_SIZE as written evaluates to the sum of the configured sizes
   * for every thread count except three, and cannot be evaluated for three.
   */
  lemma TotalStackSizeAsWrittenOnlyFailsForThree(m: Macros)
    requires ValidThreadCount(m.maxThreads)
    ensures EvalSum(TotalStackSizeTokens(m.maxThreads), m) == None <==> m.maxThreads == 3
    ensures m.maxThreads != 3 ==>
      EvalSum(TotalStackSizeTokens(m.maxThreads), m) == Some(Sum(SizeValues(m, m.maxThreads as nat)))
  {
    if m.maxThreads != 3 {
      TokensAsWritten(m.maxThreads);
      EvalSumTokens(m.maxThreads as nat, m);
    }
  }

  /** The intended checks are exactly Stacks.ValidConfig of the configuration the macros describe. */
  lemma IntendedIsValidConfig(m: Macros, ramStart: nat, ramEnd: nat, useCanary: bool)
    requires ValidThreadCount(m.maxThreads)
    ensures BuildAcceptedIntended(m, ramStart, ramEnd) <==> ValidConfig(ConfigOf(m, ramStart, ramEnd, useCanary))
  {
    var c := ConfigOf(m, ramStart, ramEnd, useCanary);
    EvalSumTokens(m.maxThreads as nat, m);
    assert (forall k: nat :: k < MASK_BITS ==> SizeCheckIntended(m, k)) <==> SizesAtLeastMinimum(c.sizes) by {
      if SizesAtLeastMinimum(c.sizes) {
        forall k: nat | k < MASK_BITS ensures SizeCheckIntended(m, k) {
          if k < m.maxThreads {
            assert c.sizes[k] >= MIN_STACK_SIZE;
          }
        }
      }
      if forall k: nat :: k < MASK_BITS ==> SizeCheckIntended(m, k) {
        forall i | 0 <= i < |c.sizes| ensures c.sizes[i] >= MIN_STACK_SIZE {
          assert SizeCheckIntended(m, i);
        }
      }
    }
  }

  /**
   * The checks as written accept exactly the builds the intended checks
   * accept that have a thread count other than three and define every
   * unused thread's size macro with at least MIN_STACK_SIZE.
   */
  lemma AsWrittenVersusIntended(m: Macros, ramStart: nat, ramEnd: nat)
    ensures BuildAcceptedAsWritten(m, ramStart, ramEnd) <==>
      BuildAcceptedIntended(m, ramStart, ramEnd) && m.maxThreads != 3 &&
      (forall k: nat :: m.maxThreads <= k < MASK_BITS ==> SizeValue(m, k) >= MIN_STACK_SIZE)
  {
    if ValidThreadCount(m.maxThreads) {
      TotalStackSizeAsWrittenOnlyFailsForThree(m);
      EvalSumTokens(m.maxThreads as nat, m);
      if m.maxThreads != 3 {
        TokensAsWritten(m.maxThreads);
      }
      assert (forall k: nat :: k < MASK_BITS ==> SizeCheckAsWritten(m, k)) <==>
        (forall k: nat :: k < MASK_BITS ==> SizeCheckIntended(m, k)) &&
        (forall k: nat :: m.maxThreads <= k < MASK_BITS ==> SizeValue(m, k) >= MIN_STACK_SIZE)
      by {
        forall k: nat | k < MASK_BITS
          ensures SizeCheckAsWritten(m, k) <==>
            SizeCheckIntended(m, k) && (m.maxThreads <= k ==> SizeValue(m, k) >= MIN_STACK_SIZE)
        {
        }
      }
    }
  }

  /** The stack sizes of the shipped configuration: all eight defined as 64. */
  const SHIPPED_SIZES: seq<Option<nat>> := [Some(64), Some(64), Some(64), Some(64), Some(64), Some(64), Some(64), Some(64)]

  /**
   * Three threads, all eight size macros defined as 64, and RAM at
   * 0x0100..0x08FF: the intended checks accept the build, every size check
   * as written passes, yet TOTAL_STACK_SIZE cannot be evaluated, so the
   * checks as written stop it.
   */
  lemma ThreeThreadBuildRejected()
    ensures BuildAcceptedIntended(Macros(3, SHIPPED_SIZES), 0x0100, 0x08FF)
    ensures forall k: nat :: k < MASK_BITS ==> SizeCheckAsWritten(Macros(3, SHIPPED_SIZES), k)
    ensures EvalSum(TotalStackSizeTokens(3), Macros(3, SHIPPED_SIZES)) == None
    ensures !BuildAcceptedAsWritten(Macros(3, SHIPPED_SIZES), 0x0100, 0x08FF)
  {
    EvalSumTokens(3, Macros(3, SHIPPED_SIZES));
  }

  /**
   * One thread whose THREAD0_STACK_SIZE is 64, no other size macro defined,
   * and RAM at 0x0100..0x08FF: the intended checks accept the build, but the
   * `#elif` for THREAD1_STACK_SIZE reads the undefined macro as 0 and stops it.
   */
  lemma OneThreadBuildRejected()
    ensures BuildAcceptedIntended(Macros(1, [Some(64)]), 0x0100, 0x08FF)
    ensures !SizeCheckAsWritten(Macros(1, [Some(64)]), 1)
    ensures !BuildAcceptedAsWritten(Macros(1, [Some(64)]), 0x0100, 0x08FF)
  {
    EvalSumTokens(1, Macros(1, [Some(64)]));
  }

  /**
   * The shipped macros, eight threads of 64 bytes, pass every check as
   * written once the RAM holds more than 512 bytes, and describe the shipped
   * configuration.
   */
  lemma ShippedBuildAccepted(ramStart: nat, ramEnd: nat)
    requires ramEnd - ramStart > 8 * 64
    ensures BuildAcceptedAsWritten(Macros(8, SHIPPED_SIZES), ramStart, ramEnd)
    ensures ConfigOf(Macros(8, SHIPPED_SIZES), ramStart, ramEnd, false) == ShippedConfig(ramStart, ramEnd)
  {
    var m := Macros(8, SHIPPED_SIZES);
    var c := ConfigOf(m, ramStart, ramEnd, false);
    assert c.sizes == ShippedConfig(ramStart, ramEnd).sizes;
    ShippedConfigValid(ramStart, ramEnd);
    IntendedIsValidConfig(m, ramStart, ramEnd, false);
    AsWrittenVersusIntended(m, ramStart, ramEnd);
  }
}
