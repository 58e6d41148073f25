/**
 * The client's password generator: options with defaults, the pool of characters of the enabled
 * classes, the strict-mode length check, the rules a strict password must meet, and generation
 * from a cache of random values that is refilled when used up.
 *
 * The character classes and the characters counted as similar are given as a value; the random
 * source is a function from the number of the refill to the values it yields.
 */
module PasswordGenerator {
  import opened Wrappers

  /** The options of a generator. */
  datatype Options = Options(
    length: int,
    lowercase: bool,
    uppercase: bool,
    numbers: bool,
    symbols: bool,
    excludeSimilarCharacters: bool,
    strict: bool)

  /** The options a caller gives; an absent one takes its default. */
  datatype PartialOptions = PartialOptions(
    length: Option<int>,
    lowercase: Option<bool>,
    uppercase: Option<bool>,
    numbers: Option<bool>,
    symbols: Option<bool>,
    excludeSimilarCharacters: Option<bool>,
    strict: Option<bool>)

  function Or<T>(o: Option<T>, default: T): T {
    if o.Some? then o.value else default
  }

  /** The options with every absent one set to its default. */
  function GenerateOptions(given: PartialOptions): (r: Options) {
    Options(
      Or(given.length, 10),
      Or(given.lowercase, true),
      Or(given.uppercase, true),
      Or(given.numbers, false),
      Or(given.symbols, false),
      Or(given.excludeSimilarCharacters, false),
      Or(given.strict, false))
  }

  const NoOptions := PartialOptions(None, None, None, None, None, None, None)

  /** Every option given, as a caller would pass a complete options object. */
  function AllGiven(o: Options): PartialOptions {
    PartialOptions(Some(o.length), Some(o.lowercase), Some(o.uppercase), Some(o.numbers), Some(o.symbols),
      Some(o.excludeSimilarCharacters), Some(o.strict))
  }

  /** Without options a password has ten characters from lowercase and uppercase letters, nothing strict. */
  lemma DefaultOptions()
    ensures GenerateOptions(NoOptions) == Options(10, true, true, false, false, false, false)
  {
  }

  /** Options that are all given are taken as they are. */
  lemma GivenOptionsKept(o: Options)
    ensures GenerateOptions(AllGiven(o)) == o
  {
  }

  /** The four classes of characters. */
  datatype CharacterClass = Numbers | Lowercase | Uppercase | Symbols

  /** The characters of every class and those counted as visually similar. */
  datatype Characters = Characters(lower: string, upper: string, numbers: string, symbols: string, similar: set<char>)
  {
    function Of(c: CharacterClass): string {
      match c
      case Numbers => numbers
      case Lowercase => lower
      case Uppercase => upper
      case Symbols => symbols
    }

    /** Every class keeps a character once the similar ones are removed. */
    predicate Valid() {
      forall c: CharacterClass :: exists i :: 0 <= i < |Of(c)| && Of(c)[i] !in similar
    }
  }

  function Enabled(o: Options, c: CharacterClass): bool {
    match c
    case Numbers => o.numbers
    case Lowercase => o.lowercase
    case Uppercase => o.uppercase
    case Symbols => o.symbols
  }

  /** The number of enabled classes. */
  function ClassCount(o: Options): (r: nat)
    ensures r <= 4
  {
    (if o.lowercase then 1 else 0) + (if o.numbers then 1 else 0) + (if o.symbols then 1 else 0) + (if o.uppercase then 1 else 0)
  }

  function StrictLengthMessage(minStrictLength: nat): string {
    "Length of the options must be at least " + DecimalString(minStrictLength) + " due to the strict option being enabled"
  }

  function DecimalString(n: nat): string {
    if n < 10 then [(n + 48) as char] else DecimalString(n / 10) + [(n % 10 + 48) as char]
  }

  /** The strict-mode length check as the generator writes it: a length equal to the number of classes is rejected. */
  function AssertStrictMatchesLengthAsWritten(o: Options): (r: Result<(), string>)
    ensures r.Err? <==> o.strict && ClassCount(o) >= o.length
    ensures r.Err? ==> r.error == StrictLengthMessage(ClassCount(o))
  {
    if o.strict && ClassCount(o) >= o.length then Err(StrictLengthMessage(ClassCount(o))) else Ok(())
  }

  /** The strict-mode length check: a strict password needs at least one character per enabled class. */
  function AssertStrictMatchesLength(o: Options): (r: Result<(), string>)
    ensures r.Err? <==> o.strict && ClassCount(o) > o.length
    ensures r.Err? ==> r.error == StrictLengthMessage(ClassCount(o))
  {
    if o.strict && ClassCount(o) > o.length then Err(StrictLengthMessage(ClassCount(o))) else Ok(())
  }

  /** The characters of the enabled classes, in the order lowercase, uppercase, numbers, symbols. */
  function RawPool(o: Options, chars: Characters): string {
    (if o.lowercase then chars.lower else []) + (if o.uppercase then chars.upper else []) +
    (if o.numbers then chars.numbers else []) + (if o.symbols then chars.symbols else [])
  }

  /** The characters of `s` that are not similar ones, in order. */
  function RemoveSimilar(s: string, similar: set<char>): (r: string)
    ensures forall c :: c in r <==> c in s && c !in similar
  {
    if s == [] then []
    else RemoveSimilar(s[..|s| - 1], similar) + (if s[|s| - 1] in similar then [] else [s[|s| - 1]])
  }

  const EmptyPoolMessage := "You must use at least one of the rules for the character pool."

  /**
   * The pool the characters of a password are drawn from: the enabled classes, without the similar
   * characters when those are excluded. Without any class the pool is an error.
   */
  function GeneratePool(o: Options, chars: Characters): (r: Result<string, string>)
    ensures r.Err? <==> RawPool(o, chars) == []
    ensures r.Err? ==> r.error == EmptyPoolMessage
  {
    var pool := RawPool(o, chars);
    if pool == [] then Err(EmptyPoolMessage)
    else if o.excludeSimilarCharacters then Ok(RemoveSimilar(pool, chars.similar))
    else Ok(pool)
  }

  /** A character is in the pool exactly when an enabled class has it and it is not an excluded similar one. */
  lemma PoolCharacters(o: Options, chars: Characters, ch: char)
    requires GeneratePool(o, chars).Ok?
    ensures ch in GeneratePool(o, chars).value <==>
      (exists c: CharacterClass :: Enabled(o, c) && ch in chars.Of(c)) && !(o.excludeSimilarCharacters && ch in chars.similar)
  {
    if ch in RawPool(o, chars) {
      if o.lowercase && ch in chars.lower {
        assert Enabled(o, Lowercase) && ch in chars.Of(Lowercase);
      } else if o.uppercase && ch in chars.upper {
        assert Enabled(o, Uppercase) && ch in chars.Of(Uppercase);
      } else if o.numbers && ch in chars.numbers {
        assert Enabled(o, Numbers) && ch in chars.Of(Numbers);
      } else {
        assert Enabled(o, Symbols) && ch in chars.Of(Symbols);
      }
    }
  }

  /** With characters in every class, the pool is an error exactly when no class is enabled. */
  lemma EmptyPoolIffNoClass(o: Options, chars: Characters)
    requires chars.Valid()
    ensures GeneratePool(o, chars).Err? <==> ClassCount(o) == 0
  {
    assert FirstKept(chars, Lowercase) in chars.lower && FirstKept(chars, Uppercase) in chars.upper;
    assert FirstKept(chars, Numbers) in chars.numbers && FirstKept(chars, Symbols) in chars.symbols;
  }

  /** The first character of a class that is not similar. */
  function FirstKept(chars: Characters, c: CharacterClass): (r: char)
    requires chars.Valid()
    ensures r in chars.Of(c) && r !in chars.similar
  {
    FirstNotIn(chars.Of(c), chars.similar)
  }

  function FirstNotIn(s: string, excluded: set<char>): (r: char)
    requires exists i :: 0 <= i < |s| && s[i] !in excluded
    ensures r in s && r !in excluded
  {
    if s[0] !in excluded then s[0] else FirstNotIn(s[1..], excluded)
  }

  /** The rules of a strict generator, one per enabled class, in the order numbers, lowercase, uppercase, symbols. */
  function LoadRules(o: Options): (r: seq<CharacterClass>)
    ensures forall c :: c in r <==> Enabled(o, c)
    ensures |r| == ClassCount(o)
  {
    (if o.numbers then [Numbers] else []) + (if o.lowercase then [Lowercase] else []) +
    (if o.uppercase then [Uppercase] else []) + (if o.symbols then [Symbols] else [])
  }

  /** A rule holds when the password has a character of its class. */
  predicate RuleHolds(chars: Characters, c: CharacterClass, password: string) {
    exists i :: 0 <= i < |password| && password[i] in chars.Of(c)
  }

  predicate FitsAllRules(chars: Characters, rules: seq<CharacterClass>, password: string) {
    forall k :: 0 <= k < |rules| ==> RuleHolds(chars, rules[k], password)
  }

  /** One kept character of the class of every rule, rule by rule. */
  function Representatives(o: Options, chars: Characters): (r: string)
    requires chars.Valid()
    ensures |r| == |LoadRules(o)|
    ensures forall i :: 0 <= i < |r| ==> r[i] == FirstKept(chars, LoadRules(o)[i])
  {
    var rules := LoadRules(o);
    seq(|rules|, i requires 0 <= i < |rules| => FirstKept(chars, rules[i]))
  }

  lemma RepresentativeInPool(o: Options, chars: Characters, k: nat)
    requires chars.Valid() && k < |LoadRules(o)|
    ensures GeneratePool(o, chars).Ok? && Representatives(o, chars)[k] in GeneratePool(o, chars).value
  {
    var c := LoadRules(o)[k];
    assert Enabled(o, c);
    EmptyPoolIffNoClass(o, chars);
    PoolCharacters(o, chars, FirstKept(chars, c));
  }

  /** The representatives followed by copies of the first one, up to `length` characters. */
  function StrictWitness(o: Options, chars: Characters, length: nat): (password: string)
    requires chars.Valid() && 1 <= ClassCount(o) <= length
    ensures |password| == length
    ensures forall i :: 0 <= i < |password| ==>
      password[i] == Representatives(o, chars)[if i < ClassCount(o) then i else 0]
  {
    var reps := Representatives(o, chars);
    reps + seq(length - |reps|, _ => reps[0])
  }

  lemma StrictWitnessInPool(o: Options, chars: Characters, length: nat)
    requires chars.Valid() && 1 <= ClassCount(o) <= length
    ensures GeneratePool(o, chars).Ok?
    ensures forall i :: 0 <= i < length ==> StrictWitness(o, chars, length)[i] in GeneratePool(o, chars).value
  {
    EmptyPoolIffNoClass(o, chars);
    forall i | 0 <= i < length
      ensures StrictWitness(o, chars, length)[i] in GeneratePool(o, chars).value
    {
      RepresentativeInPool(o, chars, if i < ClassCount(o) then i else 0);
    }
  }

  lemma StrictWitnessFitsRules(o: Options, chars: Characters, length: nat)
    requires chars.Valid() && 1 <= ClassCount(o) <= length
    ensures FitsAllRules(chars, LoadRules(o), StrictWitness(o, chars, length))
  {
    var password := StrictWitness(o, chars, length);
    forall k | 0 <= k < |LoadRules(o)|
      ensures RuleHolds(chars, LoadRules(o)[k], password)
    {
      assert password[k] == FirstKept(chars, LoadRules(o)[k]);
    }
  }

  /**
   * Every option set the corrected check accepts can be met in strict mode: there is a password of
   * the requested length, drawn from the pool, that meets every rule.
   */
  lemma StrictLengthSatisfiable(o: Options, chars: Characters)
    requires chars.Valid() && ClassCount(o) >= 1
    requires o.strict && AssertStrictMatchesLength(o).Ok?
    ensures GeneratePool(o, chars).Ok?
    ensures exists password: string :: (
      |password| == o.length &&
      (forall i :: 0 <= i < |password| ==> password[i] in GeneratePool(o, chars).value) &&
      FitsAllRules(chars, LoadRules(o), password))
  {
    StrictWitnessInPool(o, chars, o.length);
    StrictWitnessFitsRules(o, chars, o.length);
    var password := StrictWitness(o, chars, o.length);
    assert |password| == o.length;
  }

  /**
   * The check as written turns away a strict generator of two characters from lowercase and
   * uppercase letters, although one lowercase and one uppercase letter meet both rules.
   */
  lemma AsWrittenRejectsSatisfiableLength(chars: Characters)
    requires chars.Valid()
    ensures var o := Options(2, true, true, false, false, false, true);
      AssertStrictMatchesLengthAsWritten(o).Err? && AssertStrictMatchesLength(o).Ok? && GeneratePool(o, chars).Ok? &&
      exists password: string :: (
        |password| == o.length &&
        (forall i :: 0 <= i < |password| ==> password[i] in GeneratePool(o, chars).value) &&
        FitsAllRules(chars, LoadRules(o), password))
  {
    StrictLengthSatisfiable(Options(2, true, true, false, false, false, true), chars);
  }

  /** With characters in every class, an accepted pool is never empty. */
  lemma PoolNotEmpty(o: Options, chars: Characters)
    requires chars.Valid() && GeneratePool(o, chars).Ok?
    ensures |GeneratePool(o, chars).value| > 0
  {
    EmptyPoolIffNoClass(o, chars);
    RepresentativeInPool(o, chars, 0);
  }

  class Generator {
    const options: Options
    const chars: Characters
    const pool: string
    const rules: seq<CharacterClass>
    const batchSize: nat
    /** The values the random source yields on its `n`th refill of the cache. */
    const random: nat -> seq<nat>
    const randomBytes: array<nat>
    var currentIndex: nat
    /** How often the cache has been filled so far. */
    var refills: nat

    ghost predicate Valid()
      reads this, randomBytes
    {
      randomBytes.Length == batchSize >= 1 && currentIndex <= batchSize &&
      (forall n :: |random(n)| == batchSize) &&
      GeneratePool(options, chars).Ok? && pool == GeneratePool(options, chars).value && |pool| > 0 &&
      rules == LoadRules(options)
    }

    constructor(options: Options, chars: Characters, batchSize: nat, random: nat -> seq<nat>)
      requires chars.Valid() && GeneratePool(options, chars).Ok?
      requires batchSize >= 1 && forall n :: |random(n)| == batchSize
      ensures Valid() && fresh(randomBytes)
      ensures this.options == options && this.chars == chars && this.batchSize == batchSize && this.random == random
      ensures currentIndex == 0 && refills == 1 && randomBytes[..] == random(0)
    {
      this.options := options;
      this.chars := chars;
      this.pool := GeneratePool(options, chars).value;
      this.rules := LoadRules(options);
      this.batchSize := batchSize;
      this.random := random;
      this.randomBytes := new nat[batchSize];
      this.currentIndex := 0;
      this.refills := 0;
      new;
      PoolNotEmpty(options, chars);
      GenerateNewRandomCache();
    }

    /**
     * A generator for the given options, or the error the generator throws: first the strict-mode
     * length check as the generator writes it (a length equal to the number of classes is refused),
     * then the empty pool.
     */
    static method Create(given: PartialOptions, chars: Characters, batchSize: nat, random: nat -> seq<nat>) returns (r: Result<Generator, string>)
      requires chars.Valid()
      requires batchSize >= 1 && forall n :: |random(n)| == batchSize
      ensures var o := GenerateOptions(given);
        r.Err? <==> (o.strict && ClassCount(o) >= o.length) || GeneratePool(o, chars).Err?
      ensures var o := GenerateOptions(given);
        r.Err? ==> r.error == if o.strict && ClassCount(o) >= o.length then StrictLengthMessage(ClassCount(o)) else EmptyPoolMessage
      ensures r.Ok? ==> fresh(r.value) && fresh(r.value.randomBytes) && r.value.Valid()
      ensures r.Ok? ==> r.value.options == GenerateOptions(given) && r.value.currentIndex == 0 && r.value.refills == 1
    {
      var options := GenerateOptions(given);
      var strict := AssertStrictMatchesLengthAsWritten(options);
      if strict.Err? {
        return Err(strict.error);
      }
      var pool := GeneratePool(options, chars);
      if pool.Err? {
        return Err(pool.error);
      }
      var generator := new Generator(options, chars, batchSize, random);
      return Ok(generator);
    }

    /** Fills the cache with the next values of the random source and starts reading it from the front. */
    method GenerateNewRandomCache()
      requires randomBytes.Length == batchSize && forall n :: |random(n)| == batchSize
      modifies this, randomBytes
      ensures currentIndex == 0 && refills == old(refills) + 1 && randomBytes[..] == random(old(refills))
    {
      currentIndex := 0;
      forall i | 0 <= i < randomBytes.Length {
        randomBytes[i] := random(refills)[i];
      }
      refills := refills + 1;
    }

    /** The next value of the cache, refilling the cache first when every value has been used. */
    method GetNextRandomValue() returns (v: nat)
      requires Valid()
      modifies this, randomBytes
      ensures Valid()
      ensures old(currentIndex) >= batchSize ==>
        refills == old(refills) + 1 && randomBytes[..] == random(old(refills)) && v == random(old(refills))[0] && currentIndex == 1
      ensures old(currentIndex) < batchSize ==>
        v == old(randomBytes[currentIndex]) && currentIndex == old(currentIndex) + 1 &&
        refills == old(refills) && randomBytes[..] == old(randomBytes[..])
    {
      if currentIndex >= randomBytes.Length {
        GenerateNewRandomCache();
      }
      v := randomBytes[currentIndex];
      currentIndex := currentIndex + 1;
    }

    /** A random number below `max`. */
    method RandomNumber(max: nat) returns (n: nat)
      requires Valid() && max >= 1
      modifies this, randomBytes
      ensures Valid() && n < max
    {
      var v := GetNextRandomValue();
      n := v % max;
    }

    /** One password of the configured length, each character drawn from the pool. */
    method GenerateOnce() returns (password: string)
      requires Valid()
      modifies this, randomBytes
      ensures Valid()
      ensures |password| == if options.length >= 0 then options.length else 0
      ensures forall i :: 0 <= i < |password| ==> password[i] in pool
    {
      var passwordLength := options.length;
      var poolLength := |pool|;
      password := "";
      var i := 0;
      while i < passwordLength
        invariant Valid()
        invariant |password| == i && (if passwordLength >= 0 then i <= passwordLength else i == 0)
        invariant forall k :: 0 <= k < |password| ==> password[k] in pool
      {
        var index := RandomNumber(poolLength);
        password := password + [pool[index]];
        i := i + 1;
      }
    }

    /**
     * A password of the configured length from the pool; in strict mode it meets every rule, and a
     * password that does not is thrown away and generated anew, at most `attempts` more times.
     */
    method Generate(attempts: nat) returns (r: Option<string>)
      requires Valid()
      modifies this, randomBytes
      ensures Valid()
      ensures !options.strict ==> r.Some?
      ensures r.Some? ==> |r.value| == (if options.length >= 0 then options.length else 0)
      ensures r.Some? ==> forall i :: 0 <= i < |r.value| ==> r.value[i] in pool
      ensures r.Some? && options.strict ==> FitsAllRules(chars, rules, r.value)
      decreases attempts
    {
      var password := GenerateOnce();
      if options.strict {
        var fitsAllRequiredRules := FitsAllRules(chars, rules, password);
        if !fitsAllRequiredRules {
          if attempts == 0 {
            return None;
          }
          r := Generate(attempts - 1);
          return;
        }
      }
      return Some(password);
    }
  }
}
