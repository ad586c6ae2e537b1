/**
 * The part of the relational store that the views rely on: the records of
 * each model, lookup of a field by its name, `.filter(field=value)`, the
 * disjunctions built with `Q(...) | Q(...)`, and the exceptions that these
 * raise.  A field value is held as its text form (a primary or foreign key
 * as the text of the id), so that a query parameter, which arrives as text,
 * is compared with it directly.
 */
module Orm {
  import opened Wrappers

  type Id = string

  /** A stored value: SQL NULL, or the text of a value. */
  datatype FieldValue = Null | Val(text: string)

  datatype City = City(id: Id, name: string)
  datatype Company = Company(id: Id, name: string, nit: string, address: string, rutAddress: string,
                             pbx: string, city: Id, rutCity: Id)
  /** A user's profile, found from the user through its `user` key. */
  datatype Profile = Profile(id: Id, user: Id, name: string)
  datatype Machine = Machine(id: Id, company: Id, identifier: string, name: string, machineType: string)
  datatype Image = Image(id: Id, machine: Id)
  datatype Measurement = Measurement(id: Id, machine: Id, date: string, severity: string, analysis: string,
                                     recomendation: string, revised: string, resolved: string,
                                     measurementType: string, engineerOne: Option<Id>, engineerTwo: Option<Id>)
  datatype TermoImage = TermoImage(id: Id, measurement: Id, machine: Option<Id>, imageType: string)
  datatype Point = Point(id: Id, measurement: Id, number: string, position: string, pointType: string)
  datatype Tendency = Tendency(id: Id, point: Id, value: string)
  datatype Espectra = Espectra(id: Id, point: Id, identifier: string, value: string)
  datatype TimeSignal = TimeSignal(id: Id, point: Id, identifier: string, value: string)

  /** The model classes; a queryset is always over exactly one of them. */
  datatype Model =
    | CityModel | CompanyModel | ProfileModel | MachineModel | ImageModel | MeasurementModel
    | TermoImageModel | PointModel | TendencyModel | EspectraModel | TimeSignalModel

  /** A stored row of any model. */
  datatype Record =
    | CityRow(city: City)
    | CompanyRow(company: Company)
    | ProfileRow(profile: Profile)
    | MachineRow(machine: Machine)
    | ImageRow(image: Image)
    | MeasurementRow(measurement: Measurement)
    | TermoImageRow(termoImage: TermoImage)
    | PointRow(point: Point)
    | TendencyRow(tendency: Tendency)
    | EspectraRow(espectra: Espectra)
    | TimeSignalRow(timeSignal: TimeSignal)

  /** The store: every row of every model, in storage order. */
  datatype Database = Database(records: seq<Record>)

  /** What evaluating a query can raise. */
  datatype Error =
    | FieldError(model: Model, field: string)  // a lookup names a field the model does not have
    | AttributeError(attribute: string)       // an attribute that does not exist is read
    | DoesNotExist(model: Model)              // a related object is missing

  /**
   * What a `get_queryset` holds at each step: a queryset over one model, a
   * single model instance (what `user.company` and `user.profile` give), or
   * a raised exception, which skips every later step.
   */
  datatype Listing =
    | Rows(model: Model, rows: seq<Record>)
    | Instance(obj: Record)
    | Raised(error: Error)

  function ModelOf(r: Record): Model
  {
    match r
    case CityRow(_) => CityModel
    case CompanyRow(_) => CompanyModel
    case ProfileRow(_) => ProfileModel
    case MachineRow(_) => MachineModel
    case ImageRow(_) => ImageModel
    case MeasurementRow(_) => MeasurementModel
    case TermoImageRow(_) => TermoImageModel
    case PointRow(_) => PointModel
    case TendencyRow(_) => TendencyModel
    case EspectraRow(_) => EspectraModel
    case TimeSignalRow(_) => TimeSignalModel
  }

  /** The primary key of a row. */
  function IdOf(r: Record): Id
  {
    match r
    case CityRow(x) => x.id
    case CompanyRow(x) => x.id
    case ProfileRow(x) => x.id
    case MachineRow(x) => x.id
    case ImageRow(x) => x.id
    case MeasurementRow(x) => x.id
    case TermoImageRow(x) => x.id
    case PointRow(x) => x.id
    case TendencyRow(x) => x.id
    case EspectraRow(x) => x.id
    case TimeSignalRow(x) => x.id
  }

  /**
   * The lookups each model accepts: its field names and, for a foreign key
   * `k`, also `k__id`.
   */
  function Fields(m: Model): set<string>
  {
    match m
    case CityModel => {"id", "name"}
    case CompanyModel => {"id", "name", "nit", "address", "rut_address", "pbx",
                          "city", "city__id", "rut_city", "rut_city__id"}
    case ProfileModel => {"id", "user", "user__id", "name"}
    case MachineModel => {"id", "company", "company__id", "identifier", "name", "machine_type"}
    case ImageModel => {"id", "machine", "machine__id"}
    case MeasurementModel => {"id", "machine", "machine__id", "date", "severity", "analysis",
                              "recomendation", "revised", "resolved", "measurement_type",
                              "engineer_one", "engineer_one__id", "engineer_two", "engineer_two__id"}
    case TermoImageModel => {"id", "measurement", "measurement__id", "machine", "machine__id", "image_type"}
    case PointModel => {"id", "measurement", "measurement__id", "number", "position", "point_type"}
    case TendencyModel => {"id", "point", "point__id", "value"}
    case EspectraModel => {"id", "point", "point__id", "identifier", "value"}
    case TimeSignalModel => {"id", "point", "point__id", "identifier", "value"}
  }

  function Ref(k: Option<Id>): FieldValue
  {
    if k.Some? then Val(k.value) else Null
  }

  /**
   * The value of lookup `f` on row `r`; None when the row's model has no
   * such field.
   */
  function Lookup(r: Record, f: string): (v: Option<FieldValue>)
    ensures v.Some? <==> f in Fields(ModelOf(r))
    ensures f == "id" ==> v == Some(Val(IdOf(r)))
  {
    if f in Fields(ModelOf(r)) then Some(FieldOf(r, f)) else None
  }

  /** The value of field `f` of row `r`, for a field of its model. */
  function FieldOf(r: Record, f: string): FieldValue
  {
    match r
    case CityRow(x) =>
      if f == "id" then Val(x.id)
      else if f == "name" then Val(x.name)
      else Null
    case CompanyRow(x) =>
      if f == "id" then Val(x.id)
      else if f == "name" then Val(x.name)
      else if f == "nit" then Val(x.nit)
      else if f == "address" then Val(x.address)
      else if f == "rut_address" then Val(x.rutAddress)
      else if f == "pbx" then Val(x.pbx)
      else if f == "city" || f == "city__id" then Val(x.city)
      else if f == "rut_city" || f == "rut_city__id" then Val(x.rutCity)
      else Null
    case ProfileRow(x) =>
      if f == "id" then Val(x.id)
      else if f == "user" || f == "user__id" then Val(x.user)
      else if f == "name" then Val(x.name)
      else Null
    case MachineRow(x) =>
      if f == "id" then Val(x.id)
      else if f == "company" || f == "company__id" then Val(x.company)
      else if f == "identifier" then Val(x.identifier)
      else if f == "name" then Val(x.name)
      else if f == "machine_type" then Val(x.machineType)
      else Null
    case ImageRow(x) =>
      if f == "id" then Val(x.id)
      else if f == "machine" || f == "machine__id" then Val(x.machine)
      else Null
    case MeasurementRow(x) =>
      if f == "id" then Val(x.id)
      else if f == "machine" || f == "machine__id" then Val(x.machine)
      else if f == "date" then Val(x.date)
      else if f == "severity" then Val(x.severity)
      else if f == "analysis" then Val(x.analysis)
      else if f == "recomendation" then Val(x.recomendation)
      else if f == "revised" then Val(x.revised)
      else if f == "resolved" then Val(x.resolved)
      else if f == "measurement_type" then Val(x.measurementType)
      else if f == "engineer_one" || f == "engineer_one__id" then Ref(x.engineerOne)
      else if f == "engineer_two" || f == "engineer_two__id" then Ref(x.engineerTwo)
      else Null
    case TermoImageRow(x) =>
      if f == "id" then Val(x.id)
      else if f == "measurement" || f == "measurement__id" then Val(x.measurement)
      else if f == "machine" || f == "machine__id" then Ref(x.machine)
      else if f == "image_type" then Val(x.imageType)
      else Null
    case PointRow(x) =>
      if f == "id" then Val(x.id)
      else if f == "measurement" || f == "measurement__id" then Val(x.measurement)
      else if f == "number" then Val(x.number)
      else if f == "position" then Val(x.position)
      else if f == "point_type" then Val(x.pointType)
      else Null
    case TendencyRow(x) =>
      if f == "id" then Val(x.id)
      else if f == "point" || f == "point__id" then Val(x.point)
      else if f == "value" then Val(x.value)
      else Null
    case EspectraRow(x) =>
      if f == "id" then Val(x.id)
      else if f == "point" || f == "point__id" then Val(x.point)
      else if f == "identifier" then Val(x.identifier)
      else if f == "value" then Val(x.value)
      else Null
    case TimeSignalRow(x) =>
      if f == "id" then Val(x.id)
      else if f == "point" || f == "point__id" then Val(x.point)
      else if f == "identifier" then Val(x.identifier)
      else if f == "value" then Val(x.value)
      else Null
  }

  /** The rows of `s` that satisfy `p`, in their original order. */
  function Where<T(!new)>(s: seq<T>, p: T -> bool): (r: seq<T>)
    ensures |r| <= |s|
    ensures forall x :: x in r <==> x in s && p(x)
  {
    if s == [] then [] else (if p(s[0]) then [s[0]] else []) + Where(s[1..], p)
  }

  /** Filtering by two pointwise-equal predicates gives the same rows. */
  lemma {:induction false} WhereExt<T(!new)>(s: seq<T>, p: T -> bool, q: T -> bool)
    requires forall x :: p(x) == q(x)
    ensures Where(s, p) == Where(s, q)
  {
    if s != [] {
      WhereExt(s[1..], p, q);
    }
  }

  /** Filtering twice is filtering once by the conjunction. */
  lemma {:induction false} WhereWhere<T(!new)>(s: seq<T>, p: T -> bool, q: T -> bool, pq: T -> bool)
    requires forall x :: pq(x) == (p(x) && q(x))
    ensures Where(Where(s, p), q) == Where(s, pq)
  {
    if s != [] {
      WhereWhere(s[1..], p, q, pq);
      assert Where(s, p) == (if p(s[0]) then [s[0]] else []) + Where(s[1..], p);
      if p(s[0]) {
        assert Where(s, p)[1..] == Where(s[1..], p);
      } else {
        assert Where(s, p) == Where(s[1..], p);
      }
    }
  }

  /** A predicate that holds of every row keeps the whole sequence. */
  lemma {:induction false} WhereAll<T(!new)>(s: seq<T>, p: T -> bool)
    requires forall x :: x in s ==> p(x)
    ensures Where(s, p) == s
  {
    if s != [] {
      WhereAll(s[1..], p);
    }
  }

  /** A predicate that holds of no row keeps nothing. */
  lemma {:induction false} WhereNone<T(!new)>(s: seq<T>, p: T -> bool)
    requires forall x :: x in s ==> !p(x)
    ensures Where(s, p) == []
  {
    if s != [] {
      WhereNone(s[1..], p);
    }
  }

  /** `Model.objects.all()`: the rows of one model, in storage order. */
  function Table(db: Database, m: Model): (r: seq<Record>)
    ensures forall x :: x in r <==> x in db.records && ModelOf(x) == m
  {
    Where(db.records, (x: Record) => ModelOf(x) == m)
  }

  function Objects(db: Database, m: Model): Listing
  {
    Rows(m, Table(db, m))
  }

  /** The first row whose lookup `f` equals `v`. */
  function FindBy(rows: seq<Record>, f: string, v: FieldValue): (r: Option<Record>)
    ensures r.Some? ==> r.value in rows && Lookup(r.value, f) == Some(v)
    ensures r.None? ==> forall x :: x in rows ==> Lookup(x, f) != Some(v)
  {
    if rows == [] then None
    else if Lookup(rows[0], f) == Some(v) then Some(rows[0])
    else FindBy(rows[1..], f, v)
  }

  /**
   * `queryset.filter(f=v)`: narrows a queryset; on a model instance there
   * is no `filter` attribute; a field the model lacks raises FieldError.
   */
  function Filter(l: Listing, f: string, v: FieldValue): Listing
  {
    match l
    case Raised(_) => l
    case Instance(_) => Raised(AttributeError("filter"))
    case Rows(m, rs) =>
      if f in Fields(m) then Rows(m, Where(rs, (x: Record) => Lookup(x, f) == Some(v)))
      else Raised(FieldError(m, f))
  }

  /** One exact-match condition `f=v`. */
  datatype Cond = Cond(field: string, value: FieldValue)

  predicate Satisfies(r: Record, cs: seq<Cond>)
  {
    forall c :: c in cs ==> Lookup(r, c.field) == Some(c.value)
  }

  /** The first field among `cs` that model `m` lacks. */
  function FirstMissing(m: Model, cs: seq<Cond>): (r: Option<string>)
    ensures r.None? <==> forall c :: c in cs ==> c.field in Fields(m)
    ensures r.Some? ==> r.value !in Fields(m) && exists c :: c in cs && c.field == r.value
  {
    if cs == [] then None
    else if cs[0].field !in Fields(m) then Some(cs[0].field)
    else FirstMissing(m, cs[1..])
  }

  lemma {:induction false} FirstMissingSnoc(m: Model, cs: seq<Cond>, c: Cond)
    ensures FirstMissing(m, cs + [c]) ==
            if FirstMissing(m, cs).Some? then FirstMissing(m, cs)
            else if c.field in Fields(m) then None
            else Some(c.field)
  {
    if cs != [] {
      assert (cs + [c])[1..] == cs[1..] + [c];
      FirstMissingSnoc(m, cs[1..], c);
    }
  }

  /** The first missing field of two condition lists run one after the other. */
  lemma {:induction false} FirstMissingAppend(m: Model, cs: seq<Cond>, ds: seq<Cond>)
    ensures FirstMissing(m, cs + ds) ==
            if FirstMissing(m, cs).Some? then FirstMissing(m, cs) else FirstMissing(m, ds)
  {
    if cs == [] {
      assert cs + ds == ds;
    } else {
      assert (cs + ds)[1..] == cs[1..] + ds;
      FirstMissingAppend(m, cs[1..], ds);
    }
  }

  /**
   * The declarative reading of a chain of `.filter` calls: the base
   * restricted to the rows that satisfy every condition at once, or the
   * exception that the first offending condition raises.
   */
  function Narrow(base: Listing, cs: seq<Cond>): Listing
  {
    if cs == [] then base
    else match base
      case Raised(_) => base
      case Instance(_) => Raised(AttributeError("filter"))
      case Rows(m, rs) =>
        match FirstMissing(m, cs)
        case Some(f) => Raised(FieldError(m, f))
        case None => Rows(m, Where(rs, (x: Record) => Satisfies(x, cs)))
  }

  /** Applying one more `.filter` conjoins one more condition. */
  lemma FilterNarrow(base: Listing, cs: seq<Cond>, c: Cond)
    ensures Filter(Narrow(base, cs), c.field, c.value) == Narrow(base, cs + [c])
  {
    if base.Rows? {
      FirstMissingSnoc(base.model, cs, c);
    }
    if base.Rows? && FirstMissing(base.model, cs + [c]).None? {
      var rs := base.rows;
      var one := (x: Record) => Lookup(x, c.field) == Some(c.value);
      var all := (x: Record) => Satisfies(x, cs + [c]);
      if cs == [] {
        assert forall x :: one(x) == all(x);
        WhereExt(rs, one, all);
      } else {
        var before := (x: Record) => Satisfies(x, cs);
        assert forall x :: all(x) == (before(x) && one(x));
        WhereWhere(rs, before, one, all);
      }
    }
  }

  /**
   * Narrowing a queryset gives exactly the base rows that satisfy every
   * condition (both directions), and never more rows than the base.
   */
  lemma NarrowRows(base: Listing, cs: seq<Cond>)
    requires base.Rows?
    requires Narrow(base, cs).Rows?
    ensures Narrow(base, cs).model == base.model
    ensures |Narrow(base, cs).rows| <= |base.rows|
    ensures forall x :: x in Narrow(base, cs).rows <==> x in base.rows && Satisfies(x, cs)
  {
  }

  /**
   * Conditions on fields the model has never raise: the result is the
   * queryset of the base rows that satisfy all of them.
   */
  lemma NarrowKnown(base: Listing, cs: seq<Cond>)
    requires base.Rows?
    requires forall c :: c in cs ==> c.field in Fields(base.model)
    ensures Narrow(base, cs).Rows? && Narrow(base, cs).model == base.model
    ensures forall x :: x in Narrow(base, cs).rows <==> x in base.rows && Satisfies(x, cs)
  {
  }

  /** Narrowing a queryset succeeds exactly when the model has every field named. */
  lemma NarrowRaises(base: Listing, cs: seq<Cond>)
    requires base.Rows? && cs != []
    ensures Narrow(base, cs).Raised? <==> exists c :: c in cs && c.field !in Fields(base.model)
    ensures Narrow(base, cs).Raised? ==> Narrow(base, cs).error.FieldError?
  {
  }

  /**
   * The order in which conditions are applied does not matter: two lists
   * with the same conditions either both raise or give the same rows.
   */
  lemma NarrowOrderIrrelevant(base: Listing, cs: seq<Cond>, ds: seq<Cond>)
    requires forall c :: c in cs <==> c in ds
    ensures Narrow(base, cs).Raised? <==> Narrow(base, ds).Raised?
    ensures !Narrow(base, cs).Raised? ==> Narrow(base, cs) == Narrow(base, ds)
  {
    assert cs == [] <==> ds == [] by {
      if cs != [] { assert cs[0] in ds; }
      if ds != [] { assert ds[0] in cs; }
    }
    if base.Rows? && cs != [] && FirstMissing(base.model, cs).None? {
      WhereExt(base.rows, (x: Record) => Satisfies(x, cs), (x: Record) => Satisfies(x, ds));
    }
  }

  /**
   * Two groups of conditions applied together give the intersection of
   * the groups applied separately.
   */
  lemma NarrowIntersects(base: Listing, cs: seq<Cond>, ds: seq<Cond>)
    requires base.Rows?
    requires Narrow(base, cs + ds).Rows? && cs != [] && ds != []
    ensures Narrow(base, cs).Rows? && Narrow(base, ds).Rows?
    ensures forall x :: x in Narrow(base, cs + ds).rows <==>
                        x in Narrow(base, cs).rows && x in Narrow(base, ds).rows
  {
    assert forall c :: c in cs ==> c in cs + ds;
    assert forall c :: c in ds ==> c in cs + ds;
    forall x
      ensures Satisfies(x, cs + ds) <==> Satisfies(x, cs) && Satisfies(x, ds)
    {
      assert forall c :: c in cs + ds <==> c in cs || c in ds;
    }
  }

  /** A condition that no base row meets gives an empty result. */
  lemma NarrowNoMatch(base: Listing, cs: seq<Cond>, c: Cond)
    requires base.Rows? && Narrow(base, cs).Rows?
    requires c in cs
    requires forall x :: x in base.rows ==> Lookup(x, c.field) != Some(c.value)
    ensures Narrow(base, cs).rows == []
  {
    var p := (x: Record) => Satisfies(x, cs);
    forall x | x in base.rows ensures !p(x) {
    }
    WhereNone(base.rows, p);
  }

  /** An exact match on an id that no base row has gives an empty result. */
  lemma NarrowUnknownId(base: Listing, cs: seq<Cond>, id: Id)
    requires base.Rows? && Narrow(base, cs).Rows?
    requires Cond("id", Val(id)) in cs
    requires forall x :: x in base.rows ==> IdOf(x) != id
    ensures Narrow(base, cs).rows == []
  {
    NarrowNoMatch(base, cs, Cond("id", Val(id)));
  }

  /**
   * A disjunction of single-field conditions built with `|`; `Everything`
   * is the empty `Q()`, which places no restriction.
   */
  datatype Q = Everything | AnyOf(terms: seq<Cond>)

  predicate MatchesQ(r: Record, q: Q)
  {
    match q
    case Everything => true
    case AnyOf(terms) => exists c :: c in terms && Lookup(r, c.field) == Some(c.value)
  }

  /** `q | Q(f=v)`: combining with the empty `Q()` gives the other operand. */
  function Or(q: Q, c: Cond): Q
  {
    match q
    case Everything => AnyOf([c])
    case AnyOf(terms) => AnyOf(terms + [c])
  }

  /**
   * The disjunction the views build by starting from `Q()` and or-ing
   * `Q(f=p)` for each parent row `p` in turn.
   */
  function QOver(f: string, parents: seq<Record>): Q
  {
    if parents == [] then Everything
    else Or(QOver(f, parents[..|parents| - 1]), Cond(f, Val(IdOf(parents[|parents| - 1]))))
  }

  /** `q | Q(f=v)` matches what `q` matches, unless it is the empty `Q()`, and the rows with `f` equal to `v`. */
  lemma MatchesOr(r: Record, q: Q, c: Cond)
    ensures MatchesQ(r, Or(q, c)) <==> (q.AnyOf? && MatchesQ(r, q)) || Lookup(r, c.field) == Some(c.value)
  {
    if q.AnyOf? {
      var terms := q.terms;
      assert Or(q, c) == AnyOf(terms + [c]);
      if Lookup(r, c.field) == Some(c.value) {
        assert c in terms + [c];
      }
      if MatchesQ(r, q) {
        var d :| d in terms && Lookup(r, d.field) == Some(d.value);
        assert d in terms + [c];
      }
    } else {
      assert Or(q, c) == AnyOf([c]);
    }
  }

  /**
   * What the built disjunction matches: a row whose `f` is the id of one
   * of the parents, or ANY row when there are no parents.
   */
  lemma {:induction false} QOverMatches(f: string, parents: seq<Record>, r: Record)
    ensures MatchesQ(r, QOver(f, parents)) <==>
            parents == [] || exists p :: p in parents && Lookup(r, f) == Some(Val(IdOf(p)))
  {
    if parents != [] {
      var init := parents[..|parents| - 1];
      var last := parents[|parents| - 1];
      assert parents == init + [last];
      QOverMatches(f, init, r);
      var c := Cond(f, Val(IdOf(last)));
      assert QOver(f, parents) == Or(QOver(f, init), c);
      MatchesOr(r, QOver(f, init), c);
      assert QOver(f, init).AnyOf? <==> init != [];
      if Lookup(r, f) == Some(Val(IdOf(last))) {
        assert last in parents;
      }
      if exists p :: p in init && Lookup(r, f) == Some(Val(IdOf(p))) {
        var p :| p in init && Lookup(r, f) == Some(Val(IdOf(p)));
        assert p in parents;
      }
      if exists p :: p in parents && Lookup(r, f) == Some(Val(IdOf(p))) {
        var p :| p in parents && Lookup(r, f) == Some(Val(IdOf(p)));
        assert p in init || p == last;
      }
    }
  }

  /** `Model.objects.filter(q)`. */
  function SelectQ(rows: seq<Record>, q: Q): seq<Record>
  {
    Where(rows, (x: Record) => MatchesQ(x, q))
  }

  /** Rows whose `f` refers to one of the parents. */
  function RefersTo(rows: seq<Record>, f: string, parents: seq<Record>): (r: seq<Record>)
    ensures forall x :: x in r <==> x in rows && exists p :: p in parents && Lookup(x, f) == Some(Val(IdOf(p)))
  {
    Where(rows, (x: Record) => exists p :: p in parents && Lookup(x, f) == Some(Val(IdOf(p))))
  }

  /**
   * Filtering by the built disjunction keeps the rows that refer to a
   * parent, except that with no parents it keeps every row.
   */
  lemma SelectQOver(rows: seq<Record>, f: string, parents: seq<Record>)
    ensures SelectQ(rows, QOver(f, parents)) == if parents == [] then rows else RefersTo(rows, f, parents)
  {
    if parents == [] {
      WhereAll(rows, (x: Record) => MatchesQ(x, QOver(f, parents)));
    } else {
      forall x ensures MatchesQ(x, QOver(f, parents)) ==
                       exists p :: p in parents && Lookup(x, f) == Some(Val(IdOf(p))) {
        QOverMatches(f, parents, x);
      }
      WhereExt(rows, (x: Record) => MatchesQ(x, QOver(f, parents)),
               (x: Record) => exists p :: p in parents && Lookup(x, f) == Some(Val(IdOf(p))));
    }
  }

  /**
   * The loop `q = Q(); for p in parents: q |= Q(f=p)`.
   */
  method OrEach(parents: seq<Record>, f: string) returns (q: Q)
    ensures q == QOver(f, parents)
    ensures forall r :: MatchesQ(r, q) <==>
                        parents == [] || exists p :: p in parents && Lookup(r, f) == Some(Val(IdOf(p)))
  {
    q := Everything;
    for i := 0 to |parents|
      invariant q == QOver(f, parents[..i])
    {
      assert parents[..i + 1][..i] == parents[..i];
      q := Or(q, Cond(f, Val(IdOf(parents[i]))));
    }
    assert parents[..|parents|] == parents;
    forall r ensures MatchesQ(r, q) <==>
                     parents == [] || exists p :: p in parents && Lookup(r, f) == Some(Val(IdOf(p))) {
      QOverMatches(f, parents, r);
    }
  }
}
