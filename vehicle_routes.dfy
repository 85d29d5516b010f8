/** The `POST /find` vehicle lookup: the requested number is uppercased and
    the first record with exactly that number is returned. Letters are
    folded on ASCII only. */
module VehicleRoutes {
  import opened Models

  predicate IsLowerAscii(c: char)
  {
    'a' <= c <= 'z'
  }

  predicate IsUpperAscii(c: char)
  {
    'A' <= c <= 'Z'
  }

  function UpperChar(c: char): char
  {
    if IsLowerAscii(c) then (c as int - 32) as char else c
  }

  function LowerChar(c: char): char
  {
    if IsUpperAscii(c) then (c as int + 32) as char else c
  }

  /** `String.prototype.toUpperCase` on ASCII letters: same length, no
      lowercase letter left, every other character kept. */
  function Upper(s: string): (r: string)
    ensures |r| == |s|
    ensures forall i :: 0 <= i < |r| ==> !IsLowerAscii(r[i])
    ensures forall i :: 0 <= i < |s| && !IsLowerAscii(s[i]) ==> r[i] == s[i]
  {
    seq(|s|, i requires 0 <= i < |s| => UpperChar(s[i]))
  }

  /** Two strings that differ at most in the case of ASCII letters. */
  predicate SameIgnoringCase(a: string, b: string)
  {
    |a| == |b| && forall i :: 0 <= i < |a| ==> LowerChar(a[i]) == LowerChar(b[i])
  }

  lemma UpperCharAgrees(x: char, y: char)
    ensures UpperChar(x) == UpperChar(y) <==> LowerChar(x) == LowerChar(y)
  {
  }

  /** Uppercasing identifies exactly the strings that differ only in letter case. */
  lemma UpperEqualIff(a: string, b: string)
    ensures Upper(a) == Upper(b) <==> SameIgnoringCase(a, b)
  {
    if |a| == |b| {
      forall i | 0 <= i < |a|
        ensures Upper(a)[i] == Upper(b)[i] <==> LowerChar(a[i]) == LowerChar(b[i])
      {
        UpperCharAgrees(a[i], b[i]);
      }
      if SameIgnoringCase(a, b) {
        assert Upper(a) == Upper(b);
      } else {
        var i :| 0 <= i < |a| && LowerChar(a[i]) != LowerChar(b[i]);
        assert Upper(a)[i] != Upper(b)[i];
      }
    } else {
      assert |Upper(a)| != |Upper(b)|;
    }
  }

  /** The route's three outcomes and the HTTP status each is sent with. */
  datatype FindReply = Found(vehicle: Vehicle) | NotFound | ServerError

  function StatusCode(r: FindReply): int
  {
    match r
    case Found(_) => 200
    case NotFound => 404
    case ServerError => 500
  }

  /** The `POST /find` handler. `number` is None when the request body has no
      string `number` (calling `toUpperCase` on it throws); `storeOk` is false
      when the query throws. Both land in the handler's catch. */
  function Find(vs: seq<Vehicle>, number: Option<string>, storeOk: bool): (r: FindReply)
    ensures StatusCode(r) == 500 <==> number.None? || !storeOk
    ensures StatusCode(r) == 404 <==>
      number.Some? && storeOk && forall j :: 0 <= j < |vs| ==> vs[j].number != Upper(number.value)
    ensures r.Found? ==>
      && number.Some?
      && r.vehicle.number == Upper(number.value)
      && exists i :: 0 <= i < |vs| && vs[i] == r.vehicle && forall j :: 0 <= j < i ==> vs[j].number != r.vehicle.number
    // a record whose number holds a lowercase letter is never returned
    ensures r.Found? ==> forall i :: 0 <= i < |r.vehicle.number| ==> !IsLowerAscii(r.vehicle.number[i])
  {
    if number.None? || !storeOk then ServerError
    else match FindFirst(vs, Upper(number.value))
      case None => NotFound
      case Some(i) => Found(vs[i])
  }

  /** Two requests whose numbers differ only in letter case get the same reply. */
  lemma FindIgnoresCase(vs: seq<Vehicle>, a: string, b: string, storeOk: bool)
    requires SameIgnoringCase(a, b)
    ensures Find(vs, Some(a), storeOk) == Find(vs, Some(b), storeOk)
  {
    UpperEqualIff(a, b);
  }
}
