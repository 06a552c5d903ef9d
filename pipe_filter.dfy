/**
 * The three record filters and the pipeline that threads a record through
 * them (Pipe_filter.py).
 *
 * A record is a dictionary from field name to a string, an int or a float.
 * Each filter either returns its result or raises a Python exception; the
 * model makes the exception an explicit `Raise` value. Normalisation and
 * transformation update the dictionary in place in the source; here they
 * return the updated map.
 */
module PipeFilter {
  import opened Py

  datatype Value = Str(s: string) | Int(i: int) | Float(x: real)

  type Record = map<string, Value>

  /** The filter classes a pipeline can hold. */
  datatype Filter = Validation | Normalisation | Transformation

  // ---------------------------------------------------------------------
  // Accessing fields the way the Python expressions do

  /** `donnees[key]`, raising KeyError when the field is missing. */
  function Field(d: Record, key: string): (r: Result<Value>)
    ensures r.Ok? <==> key in d
    ensures r.Ok? ==> r.value == d[key]
    ensures r.Raise? ==> r.exc == KeyError
  {
    if key in d then Ok(d[key]) else Raise(KeyError)
  }

  /** Calling a `str` method (`split`, `lower`, `isalpha`, ...) on the value. */
  function StrMethod(v: Value): (r: Result<string>)
    ensures r.Ok? <==> v.Str?
    ensures r.Ok? ==> r.value == v.s
    ensures r.Raise? ==> r.exc == AttributeError
  {
    if v.Str? then Ok(v.s) else Raise(AttributeError)
  }

  /** Passing the value where a string is required (iteration, `re.match`, `fromisoformat`). */
  function StrArgument(v: Value): (r: Result<string>)
    ensures r.Ok? <==> v.Str?
    ensures r.Ok? ==> r.value == v.s
    ensures r.Raise? ==> r.exc == TypeError
  {
    if v.Str? then Ok(v.s) else Raise(TypeError)
  }

  /** `float(s)` on a string, raising ValueError when it does not parse. */
  function ParseFloat(s: string, num: Numerics): (r: Result<real>)
    ensures r.Ok? <==> num.parseFloat(s).Some?
    ensures r.Ok? ==> r.value == num.parseFloat(s).value
    ensures r.Raise? ==> r.exc == ValueError
  {
    match num.parseFloat(s)
    case Some(x) => Ok(x)
    case None => Raise(ValueError)
  }

  /** `float(v)`: strings are parsed, ints widened, floats kept. */
  function ToFloat(v: Value, num: Numerics): (r: Result<real>)
    ensures r.Raise? ==> v.Str? && r.exc == ValueError
    ensures v.Int? ==> r == Ok(v.i as real)
    ensures v.Float? ==> r == Ok(v.x)
    ensures v.Str? ==> (r.Ok? <==> num.parseFloat(v.s).Some?)
    ensures v.Str? && r.Ok? ==> r.value == num.parseFloat(v.s).value
  {
    match v
    case Str(s) => ParseFloat(s, num)
    case Int(i) => Ok(i as real)
    case Float(x) => Ok(x)
  }

  /** `int(v)`: strings are parsed, floats truncated toward zero. */
  function ToInt(v: Value, num: Numerics): (r: Result<int>)
    ensures r.Raise? ==> v.Str? && r.exc == ValueError
    ensures v.Int? ==> r == Ok(v.i)
    ensures v.Float? ==> r == Ok(TruncateReal(v.x))
    ensures v.Str? ==> (r.Ok? <==> num.parseInt(v.s).Some?)
    ensures v.Str? && r.Ok? ==> r.value == num.parseInt(v.s).value
  {
    match v
    case Str(s) => (match num.parseInt(s) case Some(i) => Ok(i) case None => Raise(ValueError))
    case Int(i) => Ok(i)
    case Float(x) => Ok(TruncateReal(x))
  }

  /**
   * `re.match(r'^\d{n}$', str(v))`. The text Python gives a float always
   * holds '.', 'e', "inf" or "nan", so a float never matches.
   */
  predicate TextMatchesDigits(v: Value, n: nat) {
    match v
    case Str(s) => MatchesDigits(s, n)
    case Int(i) => MatchesDigits(IntToStr(i), n)
    case Float(_) => false
  }

  // ---------------------------------------------------------------------
  // FiltreValidation: thirteen checks, each Ok(passes) or an exception

  const ClientTypes: seq<string> := ["residentiel", "commercial", "industriel"]

  predicate VilleChar(c: char) {
    IsAlpha(c) || IsSpace(c) || c == '"' || c == '\''
  }

  predicate AlnumOrSpace(c: char) {
    IsAlnum(c) || IsSpace(c)
  }

  function CheckCompteur(d: Record): (r: Result<bool>)
    ensures r.Ok? <==> "compteur_id" in d
    ensures r.Ok? ==> (r.value <==> TextMatchesDigits(d["compteur_id"], 6))
  {
    var v :- Field(d, "compteur_id");
    Ok(TextMatchesDigits(v, 6))
  }

  /** `fromisoformat` raises TypeError on a non-string; only its ValueError is caught. */
  function CheckTimestamp(d: Record, num: Numerics): (r: Result<bool>)
    ensures r.Ok? <==> "timestamp" in d && d["timestamp"].Str?
    ensures r.Raise? ==> r.exc == (if "timestamp" in d then TypeError else KeyError)
    ensures r.Ok? ==> (r.value <==> num.isIsoTimestamp(d["timestamp"].s))
  {
    var v :- Field(d, "timestamp");
    var s :- StrArgument(v);
    Ok(num.isIsoTimestamp(s))
  }

  /** The first word must parse as a number: no word raises IndexError, no number ValueError. */
  function CheckConsommation(d: Record, num: Numerics): (r: Result<bool>)
    ensures r.Ok? <==> ("consommation" in d && d["consommation"].Str?
      && |SplitWs(d["consommation"].s)| > 0 && num.parseFloat(SplitWs(d["consommation"].s)[0]).Some?)
    ensures r.Ok? ==> (r.value <==> 0.0 <= num.parseFloat(SplitWs(d["consommation"].s)[0]).value <= 10000.0)
  {
    var v :- Field(d, "consommation");
    var s :- StrMethod(v);
    var tok :- FirstToken(s);
    var c :- ParseFloat(tok, num);
    Ok(!(c < 0.0 || c > 10000.0))
  }

  function CheckTypeClient(d: Record): (r: Result<bool>)
    ensures r.Ok? <==> "type_client" in d && d["type_client"].Str?
    ensures r.Ok? ==> (r.value <==> Lower(d["type_client"].s) in ClientTypes)
  {
    var v :- Field(d, "type_client");
    var s :- StrMethod(v);
    Ok(Lower(s) in ClientTypes)
  }

  function CheckWilaya(d: Record): (r: Result<bool>)
    ensures r.Ok? <==> "wilaya" in d && d["wilaya"].Str?
    ensures r.Ok? ==> (r.value <==> StrIsAlpha(d["wilaya"].s))
  {
    var v :- Field(d, "wilaya");
    var s :- StrMethod(v);
    Ok(StrIsAlpha(s))
  }

  function CheckVille(d: Record): (r: Result<bool>)
    ensures r.Ok? <==> "ville" in d && d["ville"].Str?
    ensures r.Ok? ==> (r.value <==> forall k :: 0 <= k < |d["ville"].s| ==> VilleChar(d["ville"].s[k]))
  {
    var v :- Field(d, "ville");
    var s :- StrArgument(v);
    Ok(forall k :: 0 <= k < |s| ==> VilleChar(s[k]))
  }

  function CheckLocalisation(d: Record): (r: Result<bool>)
    ensures r.Ok? <==> "localisation" in d && d["localisation"].Str?
    ensures r.Ok? ==> (r.value <==> MatchesLocalisation(d["localisation"].s))
  {
    var v :- Field(d, "localisation");
    var s :- StrArgument(v);
    Ok(MatchesLocalisation(s))
  }

  function CheckRegion(d: Record): (r: Result<bool>)
    ensures r.Ok? <==> "region" in d && d["region"].Str?
    ensures r.Ok? ==> (r.value <==> StrIsAlpha(d["region"].s))
  {
    var v :- Field(d, "region");
    var s :- StrMethod(v);
    Ok(StrIsAlpha(s))
  }

  function CheckCodePostal(d: Record): (r: Result<bool>)
    ensures r.Ok? <==> "code_postal" in d
    ensures r.Ok? ==> (r.value <==> TextMatchesDigits(d["code_postal"], 5))
  {
    var v :- Field(d, "code_postal");
    Ok(TextMatchesDigits(v, 5))
  }

  function CheckFournisseur(d: Record): (r: Result<bool>)
    ensures r.Ok? <==> "fournisseur" in d && d["fournisseur"].Str?
    ensures r.Ok? ==> (r.value <==> forall k :: 0 <= k < |d["fournisseur"].s| ==> AlnumOrSpace(d["fournisseur"].s[k]))
  {
    var v :- Field(d, "fournisseur");
    var s :- StrArgument(v);
    Ok(forall k :: 0 <= k < |s| ==> AlnumOrSpace(s[k]))
  }

  /** The tarif check catches ValueError: an unparsable tarif is reported, not raised. */
  function CheckTarif(d: Record, num: Numerics): (r: Result<bool>)
    ensures r.Raise? <==> "tarif" !in d
    ensures r.Ok? && r.value ==> ToFloat(d["tarif"], num).Ok? && ToFloat(d["tarif"], num).value > 0.0
    ensures r.Ok? && !r.value ==> ToFloat(d["tarif"], num).Raise? || ToFloat(d["tarif"], num).value <= 0.0
  {
    var v :- Field(d, "tarif");
    match ToFloat(v, num)
    case Ok(t) => Ok(t > 0.0)
    case Raise(_) => Ok(false)
  }

  function CheckPuissance(d: Record, num: Numerics): (r: Result<bool>)
    ensures r.Ok? <==> ("puissance_souscrite" in d && d["puissance_souscrite"].Str?
      && |SplitWs(d["puissance_souscrite"].s)| > 0 && num.parseFloat(SplitWs(d["puissance_souscrite"].s)[0]).Some?)
    ensures r.Ok? ==> (r.value <==> num.parseFloat(SplitWs(d["puissance_souscrite"].s)[0]).value > 0.0)
  {
    var v :- Field(d, "puissance_souscrite");
    var s :- StrMethod(v);
    var tok :- FirstToken(s);
    var p :- ParseFloat(tok, num);
    Ok(p > 0.0)
  }

  function CheckTypeCompteur(d: Record): (r: Result<bool>)
    ensures r.Ok? <==> "type_compteur" in d && d["type_compteur"].Str?
    ensures r.Ok? ==> (r.value <==> forall k :: 0 <= k < |d["type_compteur"].s| ==> AlnumOrSpace(d["type_compteur"].s[k]))
  {
    var v :- Field(d, "type_compteur");
    var s :- StrArgument(v);
    Ok(forall k :: 0 <= k < |s| ==> AlnumOrSpace(s[k]))
  }

  /** The message each check appends, in the order the checks run. */
  const Messages: seq<string> := [
    "ID de compteur invalide", "Horodatage invalide", "Valeur de consommation invalide",
    "Type de client invalide", "Wilaya invalide", "Ville invalide", "Localisation invalide",
    "Région invalide", "Code postal invalide", "Fournisseur invalide", "Tarif invalide",
    "Puissance souscrite invalide", "Type de compteur invalide"]

  /** The checks' outcomes, in the order the checks run. */
  function Checks(d: Record, num: Numerics): (cs: seq<Result<bool>>)
    ensures |cs| == |Messages|
  {
    [CheckCompteur(d), CheckTimestamp(d, num), CheckConsommation(d, num), CheckTypeClient(d),
     CheckWilaya(d), CheckVille(d), CheckLocalisation(d), CheckRegion(d), CheckCodePostal(d),
     CheckFournisseur(d), CheckTarif(d, num), CheckPuissance(d, num), CheckTypeCompteur(d)]
  }

  function Report(ok: bool, message: string): seq<string> {
    if ok then [] else [message]
  }

  /**
   * Appending for a check list: the first exception aborts, otherwise one
   * message for each failing check, in list order.
   */
  function Collect(cs: seq<Result<bool>>, ms: seq<string>): Result<seq<string>>
    requires |cs| == |ms|
  {
    if cs == [] then Ok([])
    else match cs[0]
      case Raise(e) => Raise(e)
      case Ok(pass) =>
        var rest :- Collect(cs[1..], ms[1..]);
        Ok(Report(pass, ms[0]) + rest)
  }

  /**
   * `FiltreValidation.traiter`: the checks run in order, each failing one
   * appends its message, the first exception aborts the filter (the checks
   * after it are never evaluated, which a pure model cannot observe).
   */
  function Validate(d: Record, num: Numerics): Result<seq<string>> {
    Collect(Checks(d, num), Messages)
  }

  /** `a` is `b` with some elements left out, order kept. */
  ghost predicate IsSubsequence<T>(a: seq<T>, b: seq<T>)
    decreases |b|
  {
    if b == [] then a == []
    else (a != [] && a[0] == b[0] && IsSubsequence(a[1..], b[1..])) || IsSubsequence(a, b[1..])
  }

  ghost predicate Distinct<T>(s: seq<T>) {
    forall i, j :: 0 <= i < j < |s| ==> s[i] != s[j]
  }

  lemma {:induction false} CollectRaisesIff(cs: seq<Result<bool>>, ms: seq<string>)
    requires |cs| == |ms|
    ensures Collect(cs, ms).Raise? <==> exists k :: 0 <= k < |cs| && cs[k].Raise?
  {
    if cs != [] {
      CollectRaisesIff(cs[1..], ms[1..]);
      if cs[0].Ok? {
        if exists k :: 0 <= k < |cs| && cs[k].Raise? {
          var k :| 0 <= k < |cs| && cs[k].Raise?;
          assert cs[1..][k - 1].Raise?;
        }
      }
    }
  }

  lemma {:induction false} CollectMessages(cs: seq<Result<bool>>, ms: seq<string>)
    requires |cs| == |ms|
    requires Collect(cs, ms).Ok?
    ensures IsSubsequence(Collect(cs, ms).value, ms)
    ensures forall k :: 0 <= k < |cs| ==> cs[k].Ok?
    ensures Distinct(ms) ==> forall k :: 0 <= k < |ms| ==> (ms[k] in Collect(cs, ms).value <==> !cs[k].value)
    ensures Collect(cs, ms).value == [] <==> forall k :: 0 <= k < |cs| ==> cs[k].value
  {
    if cs != [] {
      CollectMessages(cs[1..], ms[1..]);
      var rest := Collect(cs[1..], ms[1..]).value;
      assert Collect(cs, ms).value == Report(cs[0].value, ms[0]) + rest;
      if cs[0].value {
        assert Collect(cs, ms).value == rest;
        assert IsSubsequence(rest, ms[1..]);
      } else {
        assert ([ms[0]] + rest)[1..] == rest;
      }
      assert forall k :: 1 <= k < |cs| ==> cs[k] == cs[1..][k - 1];
      if Distinct(ms) {
        assert Distinct(ms[1..]);
        forall k | 0 <= k < |ms|
          ensures ms[k] in Collect(cs, ms).value <==> !cs[k].value
        {
          if k == 0 {
            SubsequenceElements(rest, ms[1..]);
            assert ms[0] !in ms[1..];
          } else {
            assert ms[k] == ms[1..][k - 1];
          }
        }
      }
    }
  }

  lemma {:induction false} SubsequenceElements<T>(a: seq<T>, b: seq<T>)
    requires IsSubsequence(a, b)
    ensures forall x :: x in a ==> x in b
    decreases |b|
  {
    if b != [] {
      assert forall x :: x in b[1..] ==> x in b;
      if a != [] && a[0] == b[0] && IsSubsequence(a[1..], b[1..]) {
        SubsequenceElements(a[1..], b[1..]);
        assert forall x :: x in a ==> x == a[0] || x in a[1..];
      } else {
        SubsequenceElements(a, b[1..]);
      }
    }
  }

  /**
   * What `FiltreValidation.traiter` returns: an exception exactly when some
   * check raises; otherwise exactly one message per failing check, in the
   * fixed field order, and the empty list exactly when every check passes.
   */
  lemma ValidationOutcome(d: Record, num: Numerics)
    ensures Validate(d, num).Raise? <==> exists k :: 0 <= k < |Messages| && Checks(d, num)[k].Raise?
    ensures Validate(d, num).Ok? ==>
      && IsSubsequence(Validate(d, num).value, Messages)
      && (forall k :: 0 <= k < |Messages| ==>
            (Messages[k] in Validate(d, num).value <==> Checks(d, num)[k] == Ok(false)))
      && (Validate(d, num).value == [] <==> forall k :: 0 <= k < |Messages| ==> Checks(d, num)[k] == Ok(true))
  {
    MessagesDistinct();
    CollectOutcome(Checks(d, num), Messages);
  }

  lemma CollectOutcome(cs: seq<Result<bool>>, ms: seq<string>)
    requires |cs| == |ms| && Distinct(ms)
    ensures Collect(cs, ms).Raise? <==> exists k :: 0 <= k < |ms| && cs[k].Raise?
    ensures Collect(cs, ms).Ok? ==>
      && IsSubsequence(Collect(cs, ms).value, ms)
      && (forall k :: 0 <= k < |ms| ==> (ms[k] in Collect(cs, ms).value <==> cs[k] == Ok(false)))
      && (Collect(cs, ms).value == [] <==> forall k :: 0 <= k < |ms| ==> cs[k] == Ok(true))
  {
    CollectRaisesIff(cs, ms);
    if Collect(cs, ms).Ok? {
      CollectMessages(cs, ms);
    }
  }

  lemma MessagesDistinct()
    ensures Distinct(Messages)
  {
    var firsts := seq(|Messages|, k requires 0 <= k < |Messages| => Messages[k][0]);
    var lengths := seq(|Messages|, k requires 0 <= k < |Messages| => |Messages[k]|);
    assert firsts == ['I', 'H', 'V', 'T', 'W', 'V', 'L', 'R', 'C', 'F', 'T', 'P', 'T'];
    assert lengths == [23, 19, 31, 23, 15, 14, 21, 15, 20, 20, 14, 28, 25];
  }

  /** An integer meter id passes exactly when it has six digits. */
  lemma CompteurIdCheck(d: Record, i: int)
    requires "compteur_id" in d && d["compteur_id"] == Int(i)
    ensures CheckCompteur(d) == Ok(100000 <= i <= 999999)
  {
    IntMatchesSixDigits(i);
  }

  /** An integer postal code passes exactly when it has five digits. */
  lemma CodePostalCheck(d: Record, i: int)
    requires "code_postal" in d && d["code_postal"] == Int(i)
    ensures CheckCodePostal(d) == Ok(10000 <= i <= 99999)
  {
    IntMatchesFiveDigits(i);
  }

  /**
   * A tarif that does not parse or is not positive is reported once, as
   * "Tarif invalide", whenever validation completes.
   */
  lemma TarifReportedOnce(d: Record, num: Numerics)
    requires "tarif" in d
    requires ToFloat(d["tarif"], num).Raise? || ToFloat(d["tarif"], num).value <= 0.0
    requires Validate(d, num).Ok?
    ensures Messages[10] in Validate(d, num).value
    ensures multiset(Validate(d, num).value)[Messages[10]] == 1
  {
    var cs := Checks(d, num);
    assert cs[10] == CheckTarif(d, num) == Ok(false);
    MessagesDistinct();
    ReportedOnce(cs, Messages, 10);
  }

  /** With distinct messages, a failing check's message appears exactly once. */
  lemma ReportedOnce(cs: seq<Result<bool>>, ms: seq<string>, k: nat)
    requires |cs| == |ms| && Distinct(ms) && k < |ms|
    requires Collect(cs, ms).Ok? && cs[k] == Ok(false)
    ensures ms[k] in Collect(cs, ms).value
    ensures multiset(Collect(cs, ms).value)[ms[k]] == 1
  {
    CollectOutcome(cs, ms);
    SubsequenceOfDistinct(Collect(cs, ms).value, ms);
  }

  lemma {:induction false} SubsequenceOfDistinct<T>(a: seq<T>, b: seq<T>)
    requires IsSubsequence(a, b) && Distinct(b)
    ensures Distinct(a)
    ensures forall x :: x in a ==> multiset(a)[x] == 1
    decreases |b|
  {
    if a != [] && b != [] {
      assert Distinct(b[1..]);
      if a[0] == b[0] && IsSubsequence(a[1..], b[1..]) {
        SubsequenceOfDistinct(a[1..], b[1..]);
        SubsequenceElements(a[1..], b[1..]);
        assert a[0] !in b[1..];
        assert a == [a[0]] + a[1..];
        forall x | x in a ensures multiset(a)[x] == 1 {
          if x != a[0] { assert x in a[1..]; }
        }
        forall i, j | 0 <= i < j < |a| ensures a[i] != a[j] {
          if i == 0 { assert a[j] == a[1..][j - 1]; assert a[j] in a[1..]; }
          else { assert a[i] == a[1..][i - 1] && a[j] == a[1..][j - 1]; }
        }
      } else {
        SubsequenceOfDistinct(a, b[1..]);
      }
    }
  }

  /** A consumption whose first token does not parse raises instead of being reported. */
  lemma UnparsableConsumptionRaises(d: Record, num: Numerics, s: string)
    requires "consommation" in d && d["consommation"] == Str(s)
    requires |SplitWs(s)| > 0 && num.parseFloat(SplitWs(s)[0]).None?
    ensures Validate(d, num).Raise?
  {
    ValidationOutcome(d, num);
    assert Checks(d, num)[2].Raise?;
  }

  // ---------------------------------------------------------------------
  // FiltreNormalisation


  /** The quantity in kWh: divided by 1000 only for the unit "Wh". */
  function InKwh(quantity: real, unit: string): real {
    if unit == "Wh" then quantity / 1000.0 else quantity
  }

  /** `f"{float(q):.5f} kWh"` for `q, unite = v.split()`, divided by 1000 for Wh. */
  function ConsommationKwh(v: Value, num: Numerics): (r: Result<Value>)
    ensures r.Ok? <==> v.Str? && |SplitWs(v.s)| == 2 && num.parseFloat(SplitWs(v.s)[0]).Some?
    ensures r.Ok? ==> r.value == Str(num.format5(InKwh(num.parseFloat(SplitWs(v.s)[0]).value, SplitWs(v.s)[1])) + " kWh")
  {
    var s :- StrMethod(v);
    var tokens := SplitWs(s);
    if |tokens| != 2 then Raise(ValueError)
    else
      var c :- ParseFloat(tokens[0], num);
      Ok(Str(num.format5(InKwh(c, tokens[1])) + " kWh"))
  }

  function CapitalizeValue(v: Value): (r: Result<Value>)
    ensures r.Ok? <==> v.Str?
    ensures r.Ok? ==> r.value == Str(Capitalize(v.s))
  {
    var s :- StrMethod(v);
    Ok(Str(Capitalize(s)))
  }

  function UpperValue(v: Value): (r: Result<Value>)
    ensures r.Ok? <==> v.Str?
    ensures r.Ok? ==> r.value == Str(Upper(v.s))
  {
    var s :- StrMethod(v);
    Ok(Str(Upper(s)))
  }

  function FournisseurValue(v: Value): (r: Result<Value>)
    ensures r.Ok? <==> v.Str?
    ensures r.Ok? ==> r.value == Str(Upper(ReplaceChar(v.s, ' ', '_')))
  {
    var s :- StrMethod(v);
    Ok(Str(Upper(ReplaceChar(s, ' ', '_'))))
  }

  /** `float(v.split()[0])`: the number its first word spells. */
  function PuissanceValue(v: Value, num: Numerics): (r: Result<Value>)
    ensures r.Ok? <==> v.Str? && |SplitWs(v.s)| > 0 && num.parseFloat(SplitWs(v.s)[0]).Some?
    ensures r.Ok? ==> r.value == Float(num.parseFloat(SplitWs(v.s)[0]).value)
  {
    var s :- StrMethod(v);
    var tok :- FirstToken(s);
    var p :- ParseFloat(tok, num);
    Ok(Float(p))
  }

  /** `int(v)`: an int is kept, a float truncated toward zero, a string parsed. */
  function CodePostalValue(v: Value, num: Numerics): (r: Result<Value>)
    ensures v.Int? ==> r == Ok(v)
    ensures v.Float? ==> r == Ok(Int(TruncateReal(v.x)))
    ensures v.Str? ==> (r.Ok? <==> num.parseInt(v.s).Some?)
    ensures v.Str? && r.Ok? ==> r.value == Int(num.parseInt(v.s).value)
  {
    var i :- ToInt(v, num);
    Ok(Int(i))
  }

  /** `float(v)`: a float is kept, an int widened, a string parsed. */
  function TarifValue(v: Value, num: Numerics): (r: Result<Value>)
    ensures v.Float? ==> r == Ok(v)
    ensures v.Int? ==> r == Ok(Float(v.i as real))
    ensures v.Str? ==> (r.Ok? <==> num.parseFloat(v.s).Some?)
    ensures v.Str? && r.Ok? ==> r.value == Float(num.parseFloat(v.s).value)
  {
    var x :- ToFloat(v, num);
    Ok(Float(x))
  }

  /** The conversion normalisation applies to one field. */
  datatype Conversion = ToKwh | Capitalised | Upcased | SupplierCode | PowerNumber | PostcodeNumber | TariffNumber

  function Convert(c: Conversion, v: Value, num: Numerics): Result<Value>
  {
    match c
    case ToKwh => ConsommationKwh(v, num)
    case Capitalised => CapitalizeValue(v)
    case Upcased => UpperValue(v)
    case SupplierCode => FournisseurValue(v)
    case PowerNumber => PuissanceValue(v, num)
    case PostcodeNumber => CodePostalValue(v, num)
    case TariffNumber => TarifValue(v, num)
  }

  // Each conversion is its value helper; one lemma each keeps every proof small.

  lemma ConvertToKwh(v: Value, num: Numerics)
    ensures Convert(ToKwh, v, num) == ConsommationKwh(v, num)
  {
  }

  lemma ConvertCapitalised(v: Value, num: Numerics)
    ensures Convert(Capitalised, v, num) == CapitalizeValue(v)
  {
  }

  lemma ConvertUpcased(v: Value, num: Numerics)
    ensures Convert(Upcased, v, num) == UpperValue(v)
  {
  }

  lemma ConvertSupplierCode(v: Value, num: Numerics)
    ensures Convert(SupplierCode, v, num) == FournisseurValue(v)
  {
  }

  lemma ConvertPowerNumber(v: Value, num: Numerics)
    ensures Convert(PowerNumber, v, num) == PuissanceValue(v, num)
  {
  }

  lemma ConvertPostcodeNumber(v: Value, num: Numerics)
    ensures Convert(PostcodeNumber, v, num) == CodePostalValue(v, num)
  {
  }

  lemma ConvertTariffNumber(v: Value, num: Numerics)
    ensures Convert(TariffNumber, v, num) == TarifValue(v, num)
  {
  }

  /**
   * `donnees[key] = g(donnees[key])` with `g` the conversion `conv(c, _)`,
   * raising what the lookup or the conversion raises.
   */
  function Rewrite<C>(d: Record, key: string, c: C, conv: (C, Value) -> Result<Value>): (r: Result<Record>)
    ensures r.Ok? <==> key in d && conv(c, d[key]).Ok?
    ensures r.Ok? ==> r.value == d[key := conv(c, d[key]).value]
  {
    var v :- Field(d, key);
    var v' :- conv(c, v);
    Ok(d[key := v'])
  }

  /** The fields normalisation rewrites and how, in the order the source rewrites them. */
  const Normalisations: seq<(string, Conversion)> := [
    ("consommation", ToKwh), ("type_client", Capitalised), ("wilaya", Upcased), ("ville", Upcased),
    ("fournisseur", SupplierCode), ("puissance_souscrite", PowerNumber), ("code_postal", PostcodeNumber),
    ("tarif", TariffNumber)]

  const NormalisedFields: set<string> := set i | 0 <= i < |Normalisations| :: Normalisations[i].0

  /** No step of `steps` rewrites field `k`. */
  predicate Untouched<C>(steps: seq<(string, C)>, k: string)
  {
    forall i :: 0 <= i < |steps| ==> steps[i].0 != k
  }

  predicate DistinctKeys<C>(steps: seq<(string, C)>)
  {
    forall i, j :: 0 <= i < j < |steps| ==> steps[i].0 != steps[j].0
  }

  /** The rewrites one after the other; the first exception aborts the rest. */
  function RewriteAll<C>(d: Record, steps: seq<(string, C)>, conv: (C, Value) -> Result<Value>): (r: Result<Record>)
    ensures r.Ok? ==> r.value.Keys == d.Keys
    ensures r.Ok? ==> forall k :: k in d && Untouched(steps, k) ==> r.value[k] == d[k]
    decreases |steps|
  {
    if steps == [] then Ok(d)
    else
      var d' :- Rewrite(d, steps[0].0, steps[0].1, conv);
      assert forall k :: Untouched(steps, k) ==> Untouched(steps[1..], k) by {
        forall k | Untouched(steps, k) ensures Untouched(steps[1..], k) {
          forall i | 0 <= i < |steps[1..]| ensures steps[1..][i].0 != k { assert steps[1..][i] == steps[i + 1]; }
        }
      }
      RewriteAll(d', steps[1..], conv)
  }

  /** With distinct fields, each step's field ends up as its conversion of the original value. */
  lemma {:induction false} RewriteAllField<C>(d: Record, steps: seq<(string, C)>, conv: (C, Value) -> Result<Value>, i: nat)
    requires DistinctKeys(steps) && i < |steps| && RewriteAll(d, steps, conv).Ok?
    ensures steps[i].0 in d && conv(steps[i].1, d[steps[i].0]) == Ok(RewriteAll(d, steps, conv).value[steps[i].0])
    decreases i
  {
    var k, k0 := steps[i].0, steps[0].0;
    RewriteAllUnfold(d, steps, conv);
    var d' := d[k0 := conv(steps[0].1, d[k0]).value];
    DistinctTail(steps);
    if i > 0 {
      assert steps[1..][i - 1] == steps[i];
      RewriteAllField(d', steps[1..], conv, i - 1);
    }
  }

  /** A successful run of the rewrites is its first rewrite followed by the others. */
  lemma RewriteAllUnfold<C>(d: Record, steps: seq<(string, C)>, conv: (C, Value) -> Result<Value>)
    requires steps != [] && RewriteAll(d, steps, conv).Ok?
    ensures steps[0].0 in d && conv(steps[0].1, d[steps[0].0]).Ok?
    ensures RewriteAll(d, steps, conv) == RewriteAll(d[steps[0].0 := conv(steps[0].1, d[steps[0].0]).value], steps[1..], conv)
  {
  }

  /** The later steps of distinct steps are distinct and leave the first step's field alone. */
  lemma DistinctTail<C>(steps: seq<(string, C)>)
    requires DistinctKeys(steps) && steps != []
    ensures DistinctKeys(steps[1..]) && Untouched(steps[1..], steps[0].0)
  {
    assert forall j :: 0 <= j < |steps[1..]| ==> steps[1..][j] == steps[j + 1];
  }

  lemma NormalisationsDistinct()
    ensures DistinctKeys(Normalisations)
  {
    var firsts := seq(|Normalisations|, k requires 0 <= k < |Normalisations| => Normalisations[k].0[0]);
    var lengths := seq(|Normalisations|, k requires 0 <= k < |Normalisations| => |Normalisations[k].0|);
    assert firsts == ['c', 't', 'w', 'v', 'f', 'p', 'c', 't'];
    assert lengths == [12, 11, 6, 5, 11, 19, 11, 5];
  }

  /** `FiltreNormalisation.traiter`: eight fields rewritten in place, in this order. */
  function Normalise(d: Record, num: Numerics): (r: Result<Record>)
    ensures r.Ok? ==> r.value.Keys == d.Keys
    ensures r.Ok? ==> forall k :: k in d && k !in NormalisedFields ==> r.value[k] == d[k]
  {
    RewriteAll(d, Normalisations, (c, v) => Convert(c, v, num))
  }

  /**
   * The rewritten fields of a normalised record: the quantity always
   * relabelled kWh (divided by 1000 only for Wh), the client type
   * capitalised, wilaya and ville upper-cased, the supplier's spaces
   * replaced by underscores before upper-casing, and the power, postal
   * code and tarif converted to numbers.
   */
  lemma NormalisedFieldsValues(d: Record, num: Numerics, n: Record)
    requires Normalise(d, num) == Ok(n)
    ensures && "consommation" in d && ConsommationKwh(d["consommation"], num) == Ok(n["consommation"])
      && "type_client" in d && CapitalizeValue(d["type_client"]) == Ok(n["type_client"])
      && "wilaya" in d && UpperValue(d["wilaya"]) == Ok(n["wilaya"])
      && "ville" in d && UpperValue(d["ville"]) == Ok(n["ville"])
      && "fournisseur" in d && FournisseurValue(d["fournisseur"]) == Ok(n["fournisseur"])
      && "puissance_souscrite" in d && PuissanceValue(d["puissance_souscrite"], num) == Ok(n["puissance_souscrite"])
      && "code_postal" in d && CodePostalValue(d["code_postal"], num) == Ok(n["code_postal"])
      && "tarif" in d && TarifValue(d["tarif"], num) == Ok(n["tarif"])
  {
    NormalisedConsommation(d, num, n);
    NormalisedTypeClient(d, num, n);
    NormalisedWilaya(d, num, n);
    NormalisedVille(d, num, n);
    NormalisedFournisseur(d, num, n);
    NormalisedPuissance(d, num, n);
    NormalisedCodePostal(d, num, n);
    NormalisedTarif(d, num, n);
  }

  /** Normalisation step 0: `consommation` holds `ConsommationKwh` of its old value. */
  lemma NormalisedConsommation(d: Record, num: Numerics, n: Record)
    requires Normalise(d, num) == Ok(n)
    ensures "consommation" in d && ConsommationKwh(d["consommation"], num) == Ok(n["consommation"])
  {
    NormalisedField(d, num, 0, "consommation", ToKwh);
    ConvertToKwh(d["consommation"], num);
  }

  /** Normalisation step 1: `type_client` holds `CapitalizeValue` of its old value. */
  lemma NormalisedTypeClient(d: Record, num: Numerics, n: Record)
    requires Normalise(d, num) == Ok(n)
    ensures "type_client" in d && CapitalizeValue(d["type_client"]) == Ok(n["type_client"])
  {
    NormalisedField(d, num, 1, "type_client", Capitalised);
    ConvertCapitalised(d["type_client"], num);
  }

  /** Normalisation step 2: `wilaya` holds `UpperValue` of its old value. */
  lemma NormalisedWilaya(d: Record, num: Numerics, n: Record)
    requires Normalise(d, num) == Ok(n)
    ensures "wilaya" in d && UpperValue(d["wilaya"]) == Ok(n["wilaya"])
  {
    NormalisedField(d, num, 2, "wilaya", Upcased);
    ConvertUpcased(d["wilaya"], num);
  }

  /** Normalisation step 3: `ville` holds `UpperValue` of its old value. */
  lemma NormalisedVille(d: Record, num: Numerics, n: Record)
    requires Normalise(d, num) == Ok(n)
    ensures "ville" in d && UpperValue(d["ville"]) == Ok(n["ville"])
  {
    NormalisedField(d, num, 3, "ville", Upcased);
    ConvertUpcased(d["ville"], num);
  }

  /** Normalisation step 4: `fournisseur` holds `FournisseurValue` of its old value. */
  lemma NormalisedFournisseur(d: Record, num: Numerics, n: Record)
    requires Normalise(d, num) == Ok(n)
    ensures "fournisseur" in d && FournisseurValue(d["fournisseur"]) == Ok(n["fournisseur"])
  {
    NormalisedField(d, num, 4, "fournisseur", SupplierCode);
    ConvertSupplierCode(d["fournisseur"], num);
  }

  /** Normalisation step 5: `puissance_souscrite` holds `PuissanceValue` of its old value. */
  lemma NormalisedPuissance(d: Record, num: Numerics, n: Record)
    requires Normalise(d, num) == Ok(n)
    ensures "puissance_souscrite" in d && PuissanceValue(d["puissance_souscrite"], num) == Ok(n["puissance_souscrite"])
  {
    NormalisedField(d, num, 5, "puissance_souscrite", PowerNumber);
    ConvertPowerNumber(d["puissance_souscrite"], num);
  }

  /** Normalisation step 6: `code_postal` holds `CodePostalValue` of its old value. */
  lemma NormalisedCodePostal(d: Record, num: Numerics, n: Record)
    requires Normalise(d, num) == Ok(n)
    ensures "code_postal" in d && CodePostalValue(d["code_postal"], num) == Ok(n["code_postal"])
  {
    NormalisedField(d, num, 6, "code_postal", PostcodeNumber);
    ConvertPostcodeNumber(d["code_postal"], num);
  }

  /** Normalisation step 7: `tarif` holds `TarifValue` of its old value. */
  lemma NormalisedTarif(d: Record, num: Numerics, n: Record)
    requires Normalise(d, num) == Ok(n)
    ensures "tarif" in d && TarifValue(d["tarif"], num) == Ok(n["tarif"])
  {
    NormalisedField(d, num, 7, "tarif", TariffNumber);
    ConvertTariffNumber(d["tarif"], num);
  }

  /** One step of normalisation: its field holds the conversion of the original value. */
  lemma NormalisedField(d: Record, num: Numerics, i: nat, key: string, c: Conversion)
    requires Normalise(d, num).Ok? && i < |Normalisations| && Normalisations[i] == (key, c)
    ensures key in d && key in Normalise(d, num).value
    ensures Convert(c, d[key], num) == Ok(Normalise(d, num).value[key])
  {
    NormalisationsDistinct();
    RewriteAllField(d, Normalisations, (c, v) => Convert(c, v, num), i);
  }

  // ---------------------------------------------------------------------
  // FiltreTransformation

  const AddedFields: set<string> := {"consommation_8h", "categorie_client", "ratio_consommation"}

  const Faible := "Faible consommation"
  const Moyenne := "Consommation moyenne"
  const Forte := "Forte consommation"

  /** The client category of a consumption in kWh. */
  function Categorie(kwh: real): (c: string)
    ensures c == Faible <==> kwh < 1.67
    ensures c == Moyenne <==> 1.67 <= kwh < 6.67
    ensures c == Forte <==> 6.67 <= kwh
  {
    if kwh < 1.67 then Faible else if kwh < 6.67 then Moyenne else Forte
  }

  /** The category never decreases as consumption grows. */
  lemma CategorieMonotone(a: real, b: real)
    requires a <= b
    ensures Categorie(b) == Faible ==> Categorie(a) == Faible
    ensures Categorie(a) == Forte ==> Categorie(b) == Forte
  {
  }

  /** The divisor `puissance_souscrite`: a string raises TypeError, zero ZeroDivisionError. */
  function Divisor(v: Value): (r: Result<real>)
    ensures r.Ok? ==> r.value != 0.0
    ensures r.Raise? <==> v.Str? || (v.Int? && v.i == 0) || (v.Float? && v.x == 0.0)
    ensures r.Ok? ==> r.value == (if v.Int? then v.i as real else v.x)
  {
    match v
    case Str(_) => Raise(TypeError)
    case Int(i) => if i == 0 then Raise(ZeroDivisionError) else Ok(i as real)
    case Float(x) => if x == 0.0 then Raise(ZeroDivisionError) else Ok(x)
  }

  /** `FiltreTransformation.traiter` */
  function Transform(d: Record, num: Numerics): (r: Result<Record>)
    ensures r.Ok? ==> r.value.Keys == d.Keys + AddedFields
    ensures r.Ok? ==> forall k :: k in d && k !in AddedFields ==> r.value[k] == d[k]
  {
    var cv :- Field(d, "consommation");
    var cs :- StrMethod(cv);
    var tok :- FirstToken(cs);
    var c :- ParseFloat(tok, num);
    var d1 := d["consommation_8h" := Str(num.format5(c * 8.0) + " kWh")];
    var d2 := d1["categorie_client" := Str(Categorie(c))];
    var pv :- Field(d2, "puissance_souscrite");
    var p :- Divisor(pv);
    Ok(d2["ratio_consommation" := Float(c / p)])
  }

  /** The field names transformation reads and writes are pairwise different. */
  lemma TransformKeysDistinct()
    ensures "consommation_8h" != "categorie_client" && "consommation_8h" != "ratio_consommation"
    ensures "categorie_client" != "ratio_consommation"
    ensures "puissance_souscrite" != "consommation_8h" && "puissance_souscrite" != "categorie_client"
  {
    assert |"consommation_8h"| == 15 && |"categorie_client"| == 16;
    assert |"ratio_consommation"| == 18 && |"puissance_souscrite"| == 19;
  }

  /**
   * The three fields transformation adds: eight hours of consumption, the
   * category (exactly one of three), and the consumption/power ratio.
   */
  lemma TransformedFields(d: Record, num: Numerics, t: Record)
    requires Transform(d, num) == Ok(t)
    ensures && "consommation" in d && d["consommation"].Str? && |SplitWs(d["consommation"].s)| > 0
      && var c := num.parseFloat(SplitWs(d["consommation"].s)[0]);
      && c.Some?
      && t["consommation_8h"] == Str(num.format5(c.value * 8.0) + " kWh")
      && t["categorie_client"] in {Str(Faible), Str(Moyenne), Str(Forte)}
      && t["categorie_client"] == Str(Categorie(c.value))
      && Divisor(d["puissance_souscrite"]).Ok?
      && t["ratio_consommation"] == Float(c.value / Divisor(d["puissance_souscrite"]).value)
  {
    TransformedInputs(d, num);
    var c := num.parseFloat(SplitWs(d["consommation"].s)[0]).value;
    TransformValue(d, num, c, Divisor(d["puissance_souscrite"]).value);
    TransformKeysDistinct();
    assert Categorie(c) in {Faible, Moyenne, Forte};
  }

  /** From the consumption `c` and the divisor `p` it reads, transformation adds the three fields. */
  lemma TransformValue(d: Record, num: Numerics, c: real, p: real)
    requires "consommation" in d && d["consommation"].Str? && |SplitWs(d["consommation"].s)| > 0
    requires num.parseFloat(SplitWs(d["consommation"].s)[0]) == Some(c)
    requires "puissance_souscrite" in d && Divisor(d["puissance_souscrite"]) == Ok(p)
    ensures Transform(d, num) == Ok(d["consommation_8h" := Str(num.format5(c * 8.0) + " kWh")]
      ["categorie_client" := Str(Categorie(c))]["ratio_consommation" := Float(c / p)])
  {
    TransformKeysDistinct();
    FirstTokenSplit(d["consommation"].s);
  }

  /** What a successful transformation demands of the record it reads. */
  lemma TransformedInputs(d: Record, num: Numerics)
    requires Transform(d, num).Ok?
    ensures "consommation" in d && d["consommation"].Str? && |SplitWs(d["consommation"].s)| > 0
    ensures num.parseFloat(SplitWs(d["consommation"].s)[0]).Some?
    ensures "puissance_souscrite" in d && Divisor(d["puissance_souscrite"]).Ok?
  {
    TransformKeysDistinct();
    if "consommation" in d && d["consommation"].Str? {
      FirstTokenSplit(d["consommation"].s);
    }
  }

  // ---------------------------------------------------------------------
  // Pipeline

  /** One non-validation filter applied to a record. */
  function Step(f: Filter, d: Record, num: Numerics): Result<Record>
    requires f != Validation
  {
    if f == Normalisation then Normalise(d, num) else Transform(d, num)
  }

  /**
   * `Pipeline.traiter` as a function: the filters in list order; a
   * validation filter always ends the run with None, because it always
   * returns a list; an exception from any filter propagates.
   */
  function Apply(fs: seq<Filter>, d: Record, num: Numerics): Result<Option<Record>>
    decreases |fs|
  {
    if fs == [] then Ok(Some(d))
    else match fs[0]
      case Validation =>
        (match Validate(d, num)
         case Ok(_) => Ok(None)
         case Raise(e) => Raise(e))
      case _ =>
        var d' :- Step(fs[0], d, num);
        Apply(fs[1..], d', num)
  }

  /** Reference composition of non-validation filters, built from the last filter backwards. */
  function Compose(fs: seq<Filter>, d: Record, num: Numerics): Result<Record>
    requires Validation !in fs
    decreases |fs|
  {
    if fs == [] then Ok(d)
    else
      var d' :- Compose(fs[..|fs| - 1], d, num);
      Step(fs[|fs| - 1], d', num)
  }

  function AsSome(r: Result<Record>): Result<Option<Record>> {
    match r
    case Ok(d) => Ok(Some(d))
    case Raise(e) => Raise(e)
  }

  /** Whenever a validation filter is in the list, the pipeline never yields a record. */
  lemma {:induction false} ValidationYieldsNone(fs: seq<Filter>, d: Record, num: Numerics)
    requires Validation in fs
    ensures Apply(fs, d, num).Ok? ==> Apply(fs, d, num).value.None?
    decreases |fs|
  {
    if fs[0] != Validation {
      assert Validation in fs[1..];
      match Step(fs[0], d, num)
      case Raise(_) =>
      case Ok(d') => ValidationYieldsNone(fs[1..], d', num);
    }
  }

  lemma {:induction false} ComposeSnoc(fs: seq<Filter>, f: Filter, d: Record, num: Numerics)
    requires Validation !in fs && f != Validation
    ensures Validation !in fs + [f]
    ensures Compose(fs + [f], d, num) == (var d' :- Compose(fs, d, num); Step(f, d', num))
  {
    assert (fs + [f])[..|fs|] == fs;
  }

  lemma {:induction false} ApplyFromFront(fs: seq<Filter>, d: Record, num: Numerics)
    requires Validation !in fs && fs != []
    ensures Validation !in fs[1..]
    ensures Compose(fs, d, num) == (var d' :- Step(fs[0], d, num); Compose(fs[1..], d', num))
    decreases |fs|
  {
    assert fs == [fs[0]] + fs[1..];
    if |fs| == 1 {
      assert fs[..0] == [] && fs[1..] == [];
    } else {
      var init, last := fs[..|fs| - 1], fs[|fs| - 1];
      assert fs == init + [last];
      assert init[0] == fs[0];
      assert fs[1..] == init[1..] + [last];
      ApplyFromFront(init, d, num);
      var first := Step(fs[0], d, num);
      if first.Ok? {
        ComposeSnoc(init[1..], last, first.value, num);
      }
    }
  }

  /**
   * Without a validation filter the pipeline is the composition of its
   * filters in list order; with no filters it returns the record unchanged.
   */
  lemma {:induction false} NoValidationIsComposition(fs: seq<Filter>, d: Record, num: Numerics)
    requires Validation !in fs
    ensures Apply(fs, d, num) == AsSome(Compose(fs, d, num))
    ensures fs == [] ==> Apply(fs, d, num) == Ok(Some(d))
    decreases |fs|
  {
    if fs != [] {
      ApplyFromFront(fs, d, num);
      match Step(fs[0], d, num)
      case Raise(_) =>
      case Ok(d') => NoValidationIsComposition(fs[1..], d', num);
    }
  }

  const FullPipeline: seq<Filter> := [Validation, Normalisation, Transformation]

  /**
   * The full three-filter pipeline returns None for every record whose
   * validation completes, whatever its messages, and raises otherwise.
   */
  lemma FullPipelineOutcome(d: Record, num: Numerics)
    ensures Apply(FullPipeline, d, num) ==
      if Validate(d, num).Raise? then Raise(Validate(d, num).exc) else Ok(None)
  {
  }

  /** A pipeline object holds its filter list for its whole life. */
  class Pipeline {
    const filtres: seq<Filter>

    constructor (filtres: seq<Filter>)
      ensures this.filtres == filtres
    {
      this.filtres := filtres;
    }

    /** `Pipeline.traiter`: thread the record through the filters in order. */
    method Traiter(donnees: Record, num: Numerics) returns (r: Result<Option<Record>>)
      ensures r == Apply(filtres, donnees, num)
    {
      var d := donnees;
      var k := 0;
      while k < |filtres|
        invariant 0 <= k <= |filtres|
        invariant Apply(filtres, donnees, num) == Apply(filtres[k..], d, num)
      {
        assert filtres[k..][0] == filtres[k] && filtres[k..][1..] == filtres[k + 1..];
        if filtres[k] == Validation {
          var result := Validate(d, num);
          if result.Raise? {
            return Raise(result.exc);
          }
          return Ok(None);
        }
        var next := Step(filtres[k], d, num);
        if next.Raise? {
          return Raise(next.exc);
        }
        d := next.value;
        k := k + 1;
      }
      return Ok(Some(d));
    }
  }
}
