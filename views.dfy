/**
 * The `get_queryset` of each resource view.  Each one picks a base (the
 * whole table for staff and superusers, the caller's company's records
 * otherwise) and then narrows it with one exact-match `.filter` per query
 * parameter that is present.  Every method is proved equal to `Narrow` of
 * its base and its filter table: the base restricted by the conjunction of
 * the present filters.  The tables keep the keys and fields exactly as the
 * code reads them, including the ones that read another parameter's value
 * or a field the model does not have.
 */
module Views {
  import opened Wrappers
  import opened Orm

  /** The request's query string: parameter name to value. */
  type QueryParams = map<string, string>

  /** The authenticated caller. */
  datatype User = User(id: Id, isStaff: bool, isSuperuser: bool, company: Id)

  predicate Privileged(u: User)
  {
    u.isStaff || u.isSuperuser
  }

  /** `query_params.get(key, None)`. */
  function Get(p: QueryParams, key: string): Option<string>
  {
    if key in p then Some(p[key]) else None
  }

  /** A Python value passed to a lookup: `None` is a test for NULL. */
  function ParamValue(v: Option<string>): FieldValue
  {
    if v.Some? then Val(v.value) else Null
  }

  /**
   * One line `if guard is not None: queryset = queryset.filter(field=value)`
   * where `guard` and `value` were read from the parameters `guard` and `key`.
   */
  function When(p: QueryParams, guard: string, field: string, key: string): (cs: seq<Cond>)
    ensures guard !in p ==> cs == []
    ensures guard in p ==> cs == [Cond(field, ParamValue(Get(p, key)))]
  {
    if guard in p then [Cond(field, ParamValue(Get(p, key)))] else []
  }

  /**
   * One line `if guard is not None: queryset = queryset.filter(field=value)`
   * of a view, where `guard` and `value` are read from the parameters named
   * `guard` and `key`: it conjoins one more condition when the guard is
   * present and changes nothing otherwise.
   */
  method FilterIfGiven(queryset: Listing, ghost base: Listing, ghost cs: seq<Cond>, p: QueryParams,
                       guard: string, field: string, key: string) returns (r: Listing)
    requires queryset == Narrow(base, cs)
    ensures r == Narrow(base, cs + When(p, guard, field, key))
    ensures guard !in p ==> r == queryset
  {
    var given := Get(p, guard);
    var value := Get(p, key);
    if given.Some? {
      r := Filter(queryset, field, ParamValue(value));
      FilterNarrow(base, cs, Cond(field, ParamValue(value)));
    } else {
      r := queryset;
      assert cs + When(p, guard, field, key) == cs;
    }
  }

  // ---------------------------------------------------------------------
  // The ownership chain Company -> Machine -> Measurement -> Point, as the
  // non-staff branches compute it with `Q` disjunctions.
  // ---------------------------------------------------------------------

  /** `user.company.machines`: the machines whose company is `c`. */
  function CompanyMachines(db: Database, c: Id): seq<Record>
  {
    Where(Table(db, MachineModel), (x: Record) => Lookup(x, "company") == Some(Val(c)))
  }

  /** `Measurement.objects.filter(Q() | Q(machine=m) | ...)` over the company's machines. */
  function CompanyMeasurements(db: Database, c: Id): seq<Record>
  {
    SelectQ(Table(db, MeasurementModel), QOver("machine", CompanyMachines(db, c)))
  }

  /** `Point.objects.filter(Q() | Q(measurement=me) | ...)` over those measurements. */
  function CompanyPoints(db: Database, c: Id): seq<Record>
  {
    SelectQ(Table(db, PointModel), QOver("measurement", CompanyMeasurements(db, c)))
  }

  /** A leaf table filtered by `Q() | Q(point=p) | ...` over the company's points. */
  function CompanyLeaves(db: Database, c: Id, m: Model): seq<Record>
  {
    SelectQ(Table(db, m), QOver("point", CompanyPoints(db, c)))
  }

  /** The non-staff image-like query: `Q() | Q(measurement=me) | ...` over the company's measurements. */
  function CompanyTermoImages(db: Database, c: Id): seq<Record>
  {
    SelectQ(Table(db, TermoImageModel), QOver("measurement", CompanyMeasurements(db, c)))
  }

  /** The loops that build the company's measurements, as the views run them. */
  method MeasurementsOfCompany(db: Database, c: Id) returns (measurements: seq<Record>)
    ensures measurements == CompanyMeasurements(db, c)
  {
    var qObjects := OrEach(CompanyMachines(db, c), "machine");
    measurements := SelectQ(Table(db, MeasurementModel), qObjects);
  }

  method PointsOfCompany(db: Database, c: Id) returns (points: seq<Record>)
    ensures points == CompanyPoints(db, c)
  {
    var measurements := MeasurementsOfCompany(db, c);
    var qObjectsMeasurement := OrEach(measurements, "measurement");
    points := SelectQ(Table(db, PointModel), qObjectsMeasurement);
  }

  // ---------------------------------------------------------------------
  // Bases and filter tables, view by view.
  // ---------------------------------------------------------------------

  /** `user.company` as a model instance. */
  function CompanyOf(db: Database, user: User): Listing
  {
    match FindBy(Table(db, CompanyModel), "id", Val(user.company))
    case Some(co) => Instance(co)
    case None => Raised(DoesNotExist(CompanyModel))
  }

  /** `user.company` finds its row. */
  predicate CompanyStored(db: Database, user: User)
  {
    FindBy(Table(db, CompanyModel), "id", Val(user.company)).Some?
  }

  /**
   * A non-staff base of the records under the caller's company: reading
   * `user.company` raises DoesNotExist when the company is not stored, and
   * otherwise the base is `rows`.
   */
  function Scoped(db: Database, user: User, rows: Listing): Listing
  {
    if CompanyStored(db, user) then rows else Raised(DoesNotExist(CompanyModel))
  }

  /**
   * A scoped base raises before any filter runs when the company is not
   * stored, and is filtered as `rows` otherwise.
   */
  lemma ScopedNarrow(db: Database, user: User, rows: Listing, cs: seq<Cond>)
    ensures Narrow(Scoped(db, user, rows), cs) ==
            if CompanyStored(db, user) then Narrow(rows, cs) else Raised(DoesNotExist(CompanyModel))
    ensures CompanyStored(db, user) <==> CompanyOf(db, user).Instance?
  {
  }

  /** Non-staff base: the single City instance `user.company.city`. */
  function CityBase(db: Database, user: User): Listing
  {
    if !Privileged(user) then
      match CompanyOf(db, user)
      case Instance(co) =>
        (match FindBy(Table(db, CityModel), "id", FieldOf(co, "city"))
         case Some(ci) => Instance(ci)
         case None => Raised(DoesNotExist(CityModel)))
      case other => other
    else Objects(db, CityModel)
  }

  function CityFilters(p: QueryParams): seq<Cond>
  {
    When(p, "name", "name", "name")
  }

  /** Non-staff base: the single Company instance `user.company`. */
  function CompanyBase(db: Database, user: User): Listing
  {
    if !Privileged(user) then CompanyOf(db, user) else Objects(db, CompanyModel)
  }

  /** `nit` is read from the `name` parameter. */
  function CompanyFilters(p: QueryParams): seq<Cond>
  {
    When(p, "name", "name", "name") + When(p, "name", "nit", "name")
    + When(p, "address", "address", "address") + When(p, "rut_address", "rut_address", "rut_address")
    + When(p, "pbx", "pbx", "pbx") + When(p, "city", "city__id", "city")
    + When(p, "rut_city", "rut_city__id", "rut_city")
  }

  /** Non-staff base: the single Profile instance `user.profile`. */
  function ProfileBase(db: Database, user: User): Listing
  {
    if !Privileged(user) then
      match FindBy(Table(db, ProfileModel), "user", Val(user.id))
      case Some(pr) => Instance(pr)
      case None => Raised(DoesNotExist(ProfileModel))
    else Objects(db, ProfileModel)
  }

  function ProfileFilters(p: QueryParams): seq<Cond>
  {
    When(p, "name", "name", "name") + When(p, "id", "id", "id")
  }

  function MachineBase(db: Database, user: User): Listing
  {
    if !Privileged(user) then Scoped(db, user, Rows(MachineModel, CompanyMachines(db, user.company)))
    else Objects(db, MachineModel)
  }

  /** `name` and `machine_type` are compared with the `identifier` parameter's value. */
  function MachineFilters(p: QueryParams): seq<Cond>
  {
    When(p, "id", "id", "id") + When(p, "company", "company__id", "company")
    + When(p, "identifier", "identifier", "identifier") + When(p, "name", "name", "identifier")
    + When(p, "machine_type", "machine_type", "identifier")
  }

  function ImageBase(db: Database, user: User): Listing
  {
    if !Privileged(user) then
      Scoped(db, user, Rows(ImageModel, SelectQ(Table(db, ImageModel), QOver("machine", CompanyMachines(db, user.company)))))
    else Objects(db, ImageModel)
  }

  function ImageFilters(p: QueryParams): seq<Cond>
  {
    When(p, "id", "id", "id") + When(p, "machine", "machine__id", "machine")
  }

  /** The staff base is the Image table. */
  function MeasurementBase(db: Database, user: User): Listing
  {
    if !Privileged(user) then Scoped(db, user, Rows(MeasurementModel, CompanyMeasurements(db, user.company)))
    else Objects(db, ImageModel)
  }

  function MeasurementFilters(p: QueryParams): seq<Cond>
  {
    When(p, "id", "id", "id") + When(p, "severity", "severity", "severity")
    + When(p, "date", "date", "date") + When(p, "analysis", "analysis", "analysis")
    + When(p, "recomendation", "recomendation", "recomendation")
    + When(p, "revised", "revised", "revised") + When(p, "resolved", "resolved", "resolved")
    + When(p, "measurement_type", "measurement_type", "measurement_type")
    + When(p, "machine", "machine__id", "machine")
    + When(p, "engineer_one", "engineer_one__id", "engineer_one")
    + When(p, "engineer_two", "engineer_two__id", "engineer_two")
  }

  /** The staff base is the Image table. */
  function TermoImageBase(db: Database, user: User): Listing
  {
    if !Privileged(user) then Scoped(db, user, Rows(TermoImageModel, CompanyTermoImages(db, user.company)))
    else Objects(db, ImageModel)
  }

  function TermoImageFilters(p: QueryParams): seq<Cond>
  {
    When(p, "id", "id", "id") + When(p, "image_type", "image_type", "image_type")
    + When(p, "machine", "machine", "machine") + When(p, "measurement", "measurement__id", "measurement")
  }

  function PointBase(db: Database, user: User): Listing
  {
    if !Privileged(user) then Scoped(db, user, Rows(PointModel, CompanyPoints(db, user.company)))
    else Objects(db, PointModel)
  }

  /** The `point_type` parameter filters on a field named `point_typed`. */
  function PointFilters(p: QueryParams): seq<Cond>
  {
    When(p, "id", "id", "id") + When(p, "number", "number", "number")
    + When(p, "position", "position", "position") + When(p, "point_type", "point_typed", "point_type")
    + When(p, "measurement", "measurement__id", "measurement")
  }

  /** The staff base reads `models.models.Tendency`, an attribute that does not exist. */
  function TendencyBase(db: Database, user: User): Listing
  {
    if !Privileged(user) then Scoped(db, user, Rows(TendencyModel, CompanyLeaves(db, user.company, TendencyModel)))
    else Raised(AttributeError("Tendency"))
  }

  function TendencyFilters(p: QueryParams): seq<Cond>
  {
    When(p, "id", "id", "id") + When(p, "point", "point__id", "point") + When(p, "value", "value", "value")
  }

  /** The staff base is the Tendency table. */
  function EspectraBase(db: Database, user: User): Listing
  {
    if !Privileged(user) then Scoped(db, user, Rows(EspectraModel, CompanyLeaves(db, user.company, EspectraModel)))
    else Objects(db, TendencyModel)
  }

  /** The filter table of EspectraView and of TimeSignalView. */
  function SampleFilters(p: QueryParams): seq<Cond>
  {
    When(p, "id", "id", "id") + When(p, "identifier", "identifier", "identifier")
    + When(p, "point", "point__id", "point") + When(p, "value", "value", "value")
  }

  /** The staff base is the Tendency table. */
  function TimeSignalBase(db: Database, user: User): Listing
  {
    if !Privileged(user) then Scoped(db, user, Rows(TimeSignalModel, CompanyLeaves(db, user.company, TimeSignalModel)))
    else Objects(db, TendencyModel)
  }

  // ---------------------------------------------------------------------
  // The conditions each filter table can produce.
  // ---------------------------------------------------------------------

  /** The condition a present guard adds, and nothing when it is absent. */
  lemma WhenMembers(p: QueryParams, guard: string, field: string, key: string)
    ensures forall c :: c in When(p, guard, field, key) <==>
                        guard in p && c == Cond(field, ParamValue(Get(p, key)))
  {
  }

  /** One more guarded condition on a known field keeps every condition known. */
  lemma KnownWhen(m: Model, cs: seq<Cond>, p: QueryParams, guard: string, field: string, key: string)
    requires forall c :: c in cs ==> c.field in Fields(m)
    requires field in Fields(m)
    ensures forall c :: c in cs + When(p, guard, field, key) ==> c.field in Fields(m)
  {
  }

  /** The first unknown field after one more guarded condition. */
  lemma FirstMissingWhen(m: Model, cs: seq<Cond>, p: QueryParams, guard: string, field: string, key: string)
    ensures FirstMissing(m, cs + When(p, guard, field, key)) ==
            if FirstMissing(m, cs).Some? then FirstMissing(m, cs)
            else if guard in p && field !in Fields(m) then Some(field)
            else None
  {
    FirstMissingAppend(m, cs, When(p, guard, field, key));
  }

  lemma MachineFiltersKnown(p: QueryParams)
    ensures forall c :: c in MachineFilters(p) ==> c.field in Fields(MachineModel)
  {
  }

  lemma CompanyFiltersKnown(p: QueryParams)
    ensures forall c :: c in CompanyFilters(p) ==> c.field in Fields(CompanyModel)
  {
    var cs := When(p, "name", "name", "name");
    KnownWhen(CompanyModel, cs, p, "name", "nit", "name");
    cs := cs + When(p, "name", "nit", "name");
    KnownWhen(CompanyModel, cs, p, "address", "address", "address");
    cs := cs + When(p, "address", "address", "address");
    KnownWhen(CompanyModel, cs, p, "rut_address", "rut_address", "rut_address");
    cs := cs + When(p, "rut_address", "rut_address", "rut_address");
    KnownWhen(CompanyModel, cs, p, "pbx", "pbx", "pbx");
    cs := cs + When(p, "pbx", "pbx", "pbx");
    KnownWhen(CompanyModel, cs, p, "city", "city__id", "city");
    cs := cs + When(p, "city", "city__id", "city");
    KnownWhen(CompanyModel, cs, p, "rut_city", "rut_city__id", "rut_city");
    cs := cs + When(p, "rut_city", "rut_city__id", "rut_city");
    assert cs == CompanyFilters(p);
  }

  lemma ImageFiltersKnown(p: QueryParams)
    ensures forall c :: c in ImageFilters(p) ==> c.field in Fields(ImageModel)
  {
  }

  lemma MeasurementFiltersKnown(p: QueryParams)
    ensures forall c :: c in MeasurementFilters(p) ==> c.field in Fields(MeasurementModel)
  {
    var cs := When(p, "id", "id", "id");
    KnownWhen(MeasurementModel, cs, p, "severity", "severity", "severity");
    cs := cs + When(p, "severity", "severity", "severity");
    KnownWhen(MeasurementModel, cs, p, "date", "date", "date");
    cs := cs + When(p, "date", "date", "date");
    KnownWhen(MeasurementModel, cs, p, "analysis", "analysis", "analysis");
    cs := cs + When(p, "analysis", "analysis", "analysis");
    KnownWhen(MeasurementModel, cs, p, "recomendation", "recomendation", "recomendation");
    cs := cs + When(p, "recomendation", "recomendation", "recomendation");
    KnownWhen(MeasurementModel, cs, p, "revised", "revised", "revised");
    cs := cs + When(p, "revised", "revised", "revised");
    KnownWhen(MeasurementModel, cs, p, "resolved", "resolved", "resolved");
    cs := cs + When(p, "resolved", "resolved", "resolved");
    KnownWhen(MeasurementModel, cs, p, "measurement_type", "measurement_type", "measurement_type");
    cs := cs + When(p, "measurement_type", "measurement_type", "measurement_type");
    KnownWhen(MeasurementModel, cs, p, "machine", "machine__id", "machine");
    cs := cs + When(p, "machine", "machine__id", "machine");
    KnownWhen(MeasurementModel, cs, p, "engineer_one", "engineer_one__id", "engineer_one");
    cs := cs + When(p, "engineer_one", "engineer_one__id", "engineer_one");
    KnownWhen(MeasurementModel, cs, p, "engineer_two", "engineer_two__id", "engineer_two");
    cs := cs + When(p, "engineer_two", "engineer_two__id", "engineer_two");
    assert cs == MeasurementFilters(p);
  }

  lemma TermoImageFiltersKnown(p: QueryParams)
    ensures forall c :: c in TermoImageFilters(p) ==> c.field in Fields(TermoImageModel)
  {
  }

  /** Every condition of PointView names a field of Point, except the one `point_type` adds. */
  lemma PointFiltersKnown(p: QueryParams)
    requires "point_type" !in p
    ensures forall c :: c in PointFilters(p) ==> c.field in Fields(PointModel)
  {
  }

  lemma TendencyFiltersKnown(p: QueryParams)
    ensures forall c :: c in TendencyFilters(p) ==> c.field in Fields(TendencyModel)
  {
  }

  lemma SampleFiltersKnown(p: QueryParams)
    ensures forall c :: c in SampleFilters(p) ==> c.field in Fields(EspectraModel)
    ensures forall c :: c in SampleFilters(p) ==> c.field in Fields(TimeSignalModel)
  {
    var cs := When(p, "id", "id", "id");
    KnownWhen(EspectraModel, cs, p, "identifier", "identifier", "identifier");
    KnownWhen(TimeSignalModel, cs, p, "identifier", "identifier", "identifier");
    cs := cs + When(p, "identifier", "identifier", "identifier");
    KnownWhen(EspectraModel, cs, p, "point", "point__id", "point");
    KnownWhen(TimeSignalModel, cs, p, "point", "point__id", "point");
    cs := cs + When(p, "point", "point__id", "point");
    KnownWhen(EspectraModel, cs, p, "value", "value", "value");
    KnownWhen(TimeSignalModel, cs, p, "value", "value", "value");
    cs := cs + When(p, "value", "value", "value");
    assert cs == SampleFilters(p);
  }

  /** With no query parameters no view adds a condition. */
  lemma NoParametersNoConditions()
    ensures CityFilters(map[]) == [] && CompanyFilters(map[]) == [] && ProfileFilters(map[]) == []
    ensures MachineFilters(map[]) == [] && ImageFilters(map[]) == [] && MeasurementFilters(map[]) == []
    ensures TermoImageFilters(map[]) == [] && PointFilters(map[]) == [] && TendencyFilters(map[]) == []
    ensures SampleFilters(map[]) == []
  {
  }

  // ---------------------------------------------------------------------
  // The views.
  // ---------------------------------------------------------------------

  method CityView(db: Database, user: User, params: QueryParams) returns (queryset: Listing)
    ensures queryset == Narrow(CityBase(db, user), CityFilters(params))
  {
    if !(user.isStaff || user.isSuperuser) {
      queryset := CityBase(db, user);
    } else {
      queryset := Objects(db, CityModel);
    }
    ghost var base, cs := queryset, [];
    queryset := FilterIfGiven(queryset, base, cs, params, "name", "name", "name");
    assert [] + When(params, "name", "name", "name") == When(params, "name", "name", "name");
    cs := When(params, "name", "name", "name");
  }

  method CompanyView(db: Database, user: User, params: QueryParams) returns (queryset: Listing)
    ensures queryset == Narrow(CompanyBase(db, user), CompanyFilters(params))
  {
    if !(user.isStaff || user.isSuperuser) {
      queryset := CompanyOf(db, user);
    } else {
      queryset := Objects(db, CompanyModel);
    }
    ghost var base, cs := queryset, [];
    queryset := FilterIfGiven(queryset, base, cs, params, "name", "name", "name");
    assert [] + When(params, "name", "name", "name") == When(params, "name", "name", "name");
    cs := When(params, "name", "name", "name");
    queryset := FilterIfGiven(queryset, base, cs, params, "name", "nit", "name");
    cs := cs + When(params, "name", "nit", "name");
    queryset := FilterIfGiven(queryset, base, cs, params, "address", "address", "address");
    cs := cs + When(params, "address", "address", "address");
    queryset := FilterIfGiven(queryset, base, cs, params, "rut_address", "rut_address", "rut_address");
    cs := cs + When(params, "rut_address", "rut_address", "rut_address");
    queryset := FilterIfGiven(queryset, base, cs, params, "pbx", "pbx", "pbx");
    cs := cs + When(params, "pbx", "pbx", "pbx");
    queryset := FilterIfGiven(queryset, base, cs, params, "city", "city__id", "city");
    cs := cs + When(params, "city", "city__id", "city");
    queryset := FilterIfGiven(queryset, base, cs, params, "rut_city", "rut_city__id", "rut_city");
    cs := cs + When(params, "rut_city", "rut_city__id", "rut_city");
  }

  method ProfileView(db: Database, user: User, params: QueryParams) returns (queryset: Listing)
    ensures queryset == Narrow(ProfileBase(db, user), ProfileFilters(params))
  {
    if !(user.isStaff || user.isSuperuser) {
      queryset := ProfileBase(db, user);
    } else {
      queryset := Objects(db, ProfileModel);
    }
    ghost var base, cs := queryset, [];
    queryset := FilterIfGiven(queryset, base, cs, params, "name", "name", "name");
    assert [] + When(params, "name", "name", "name") == When(params, "name", "name", "name");
    cs := When(params, "name", "name", "name");
    queryset := FilterIfGiven(queryset, base, cs, params, "id", "id", "id");
    cs := cs + When(params, "id", "id", "id");
  }

  method MachineView(db: Database, user: User, params: QueryParams) returns (queryset: Listing)
    ensures queryset == Narrow(MachineBase(db, user), MachineFilters(params))
  {
    if !(user.isStaff || user.isSuperuser) {
      if !CompanyStored(db, user) {
        queryset := Raised(DoesNotExist(CompanyModel));
      } else {
        queryset := Rows(MachineModel, CompanyMachines(db, user.company));
      }
    } else {
      queryset := Objects(db, MachineModel);
    }
    ghost var base, cs := queryset, [];
    queryset := FilterIfGiven(queryset, base, cs, params, "id", "id", "id");
    assert [] + When(params, "id", "id", "id") == When(params, "id", "id", "id");
    cs := When(params, "id", "id", "id");
    queryset := FilterIfGiven(queryset, base, cs, params, "company", "company__id", "company");
    cs := cs + When(params, "company", "company__id", "company");
    queryset := FilterIfGiven(queryset, base, cs, params, "identifier", "identifier", "identifier");
    cs := cs + When(params, "identifier", "identifier", "identifier");
    queryset := FilterIfGiven(queryset, base, cs, params, "name", "name", "identifier");
    cs := cs + When(params, "name", "name", "identifier");
    queryset := FilterIfGiven(queryset, base, cs, params, "machine_type", "machine_type", "identifier");
    cs := cs + When(params, "machine_type", "machine_type", "identifier");
  }

  method ImageView(db: Database, user: User, params: QueryParams) returns (queryset: Listing)
    ensures queryset == Narrow(ImageBase(db, user), ImageFilters(params))
  {
    if !(user.isStaff || user.isSuperuser) {
      if !CompanyStored(db, user) {
        queryset := Raised(DoesNotExist(CompanyModel));
      } else {
        var qObjects := OrEach(CompanyMachines(db, user.company), "machine");
        queryset := Rows(ImageModel, SelectQ(Table(db, ImageModel), qObjects));
      }
    } else {
      queryset := Objects(db, ImageModel);
    }
    ghost var base, cs := queryset, [];
    queryset := FilterIfGiven(queryset, base, cs, params, "id", "id", "id");
    assert [] + When(params, "id", "id", "id") == When(params, "id", "id", "id");
    cs := When(params, "id", "id", "id");
    queryset := FilterIfGiven(queryset, base, cs, params, "machine", "machine__id", "machine");
    cs := cs + When(params, "machine", "machine__id", "machine");
  }

  method MeasurementView(db: Database, user: User, params: QueryParams) returns (queryset: Listing)
    ensures queryset == Narrow(MeasurementBase(db, user), MeasurementFilters(params))
  {
    if !(user.isStaff || user.isSuperuser) {
      if !CompanyStored(db, user) {
        queryset := Raised(DoesNotExist(CompanyModel));
      } else {
        var measurements := MeasurementsOfCompany(db, user.company);
        queryset := Rows(MeasurementModel, measurements);
      }
    } else {
      queryset := Objects(db, ImageModel);
    }
    ghost var base, cs := queryset, [];
    queryset := FilterIfGiven(queryset, base, cs, params, "id", "id", "id");
    assert [] + When(params, "id", "id", "id") == When(params, "id", "id", "id");
    cs := When(params, "id", "id", "id");
    queryset := FilterIfGiven(queryset, base, cs, params, "severity", "severity", "severity");
    cs := cs + When(params, "severity", "severity", "severity");
    queryset := FilterIfGiven(queryset, base, cs, params, "date", "date", "date");
    cs := cs + When(params, "date", "date", "date");
    queryset := FilterIfGiven(queryset, base, cs, params, "analysis", "analysis", "analysis");
    cs := cs + When(params, "analysis", "analysis", "analysis");
    queryset := FilterIfGiven(queryset, base, cs, params, "recomendation", "recomendation", "recomendation");
    cs := cs + When(params, "recomendation", "recomendation", "recomendation");
    queryset := FilterIfGiven(queryset, base, cs, params, "revised", "revised", "revised");
    cs := cs + When(params, "revised", "revised", "revised");
    queryset := FilterIfGiven(queryset, base, cs, params, "resolved", "resolved", "resolved");
    cs := cs + When(params, "resolved", "resolved", "resolved");
    queryset := FilterIfGiven(queryset, base, cs, params, "measurement_type", "measurement_type", "measurement_type");
    cs := cs + When(params, "measurement_type", "measurement_type", "measurement_type");
    queryset := FilterIfGiven(queryset, base, cs, params, "machine", "machine__id", "machine");
    cs := cs + When(params, "machine", "machine__id", "machine");
    queryset := FilterIfGiven(queryset, base, cs, params, "engineer_one", "engineer_one__id", "engineer_one");
    cs := cs + When(params, "engineer_one", "engineer_one__id", "engineer_one");
    queryset := FilterIfGiven(queryset, base, cs, params, "engineer_two", "engineer_two__id", "engineer_two");
    cs := cs + When(params, "engineer_two", "engineer_two__id", "engineer_two");
  }

  method TermoImageView(db: Database, user: User, params: QueryParams) returns (queryset: Listing)
    ensures queryset == Narrow(TermoImageBase(db, user), TermoImageFilters(params))
  {
    if !(user.isStaff || user.isSuperuser) {
      if !CompanyStored(db, user) {
        queryset := Raised(DoesNotExist(CompanyModel));
      } else {
        var measurements := MeasurementsOfCompany(db, user.company);
        var qObjectsTImage := OrEach(measurements, "measurement");
        queryset := Rows(TermoImageModel, SelectQ(Table(db, TermoImageModel), qObjectsTImage));
      }
    } else {
      queryset := Objects(db, ImageModel);
    }
    ghost var base, cs := queryset, [];
    queryset := FilterIfGiven(queryset, base, cs, params, "id", "id", "id");
    assert [] + When(params, "id", "id", "id") == When(params, "id", "id", "id");
    cs := When(params, "id", "id", "id");
    queryset := FilterIfGiven(queryset, base, cs, params, "image_type", "image_type", "image_type");
    cs := cs + When(params, "image_type", "image_type", "image_type");
    queryset := FilterIfGiven(queryset, base, cs, params, "machine", "machine", "machine");
    cs := cs + When(params, "machine", "machine", "machine");
    queryset := FilterIfGiven(queryset, base, cs, params, "measurement", "measurement__id", "measurement");
    cs := cs + When(params, "measurement", "measurement__id", "measurement");
  }

  method PointView(db: Database, user: User, params: QueryParams) returns (queryset: Listing)
    ensures queryset == Narrow(PointBase(db, user), PointFilters(params))
  {
    if !(user.isStaff || user.isSuperuser) {
      if !CompanyStored(db, user) {
        queryset := Raised(DoesNotExist(CompanyModel));
      } else {
        var points := PointsOfCompany(db, user.company);
        queryset := Rows(PointModel, points);
      }
    } else {
      queryset := Objects(db, PointModel);
    }
    ghost var base, cs := queryset, [];
    queryset := FilterIfGiven(queryset, base, cs, params, "id", "id", "id");
    assert [] + When(params, "id", "id", "id") == When(params, "id", "id", "id");
    cs := When(params, "id", "id", "id");
    queryset := FilterIfGiven(queryset, base, cs, params, "number", "number", "number");
    cs := cs + When(params, "number", "number", "number");
    queryset := FilterIfGiven(queryset, base, cs, params, "position", "position", "position");
    cs := cs + When(params, "position", "position", "position");
    queryset := FilterIfGiven(queryset, base, cs, params, "point_type", "point_typed", "point_type");
    cs := cs + When(params, "point_type", "point_typed", "point_type");
    queryset := FilterIfGiven(queryset, base, cs, params, "measurement", "measurement__id", "measurement");
    cs := cs + When(params, "measurement", "measurement__id", "measurement");
  }

  /**
   * The non-staff base of the three leaf views: the loops over the
   * company's machines, measurements and points.
   */
  method LeavesOfCompany(db: Database, c: Id, m: Model) returns (leaves: seq<Record>)
    ensures leaves == CompanyLeaves(db, c, m)
  {
    var points := PointsOfCompany(db, c);
    var qObjectsPoint := OrEach(points, "point");
    leaves := SelectQ(Table(db, m), qObjectsPoint);
  }

  method TendencyView(db: Database, user: User, params: QueryParams) returns (queryset: Listing)
    ensures queryset == Narrow(TendencyBase(db, user), TendencyFilters(params))
  {
    if !(user.isStaff || user.isSuperuser) {
      if !CompanyStored(db, user) {
        queryset := Raised(DoesNotExist(CompanyModel));
      } else {
        var tendencies := LeavesOfCompany(db, user.company, TendencyModel);
        queryset := Rows(TendencyModel, tendencies);
      }
    } else {
      queryset := Raised(AttributeError("Tendency"));
    }
    ghost var base, cs := queryset, [];
    queryset := FilterIfGiven(queryset, base, cs, params, "id", "id", "id");
    assert [] + When(params, "id", "id", "id") == When(params, "id", "id", "id");
    cs := When(params, "id", "id", "id");
    queryset := FilterIfGiven(queryset, base, cs, params, "point", "point__id", "point");
    cs := cs + When(params, "point", "point__id", "point");
    queryset := FilterIfGiven(queryset, base, cs, params, "value", "value", "value");
    cs := cs + When(params, "value", "value", "value");
  }

  /** The filter chain shared by EspectraView and TimeSignalView. */
  method NarrowSamples(base: Listing, params: QueryParams) returns (queryset: Listing)
    ensures queryset == Narrow(base, SampleFilters(params))
  {
    queryset := base;
    ghost var cs := [];
    queryset := FilterIfGiven(queryset, base, cs, params, "id", "id", "id");
    assert [] + When(params, "id", "id", "id") == When(params, "id", "id", "id");
    cs := When(params, "id", "id", "id");
    queryset := FilterIfGiven(queryset, base, cs, params, "identifier", "identifier", "identifier");
    cs := cs + When(params, "identifier", "identifier", "identifier");
    queryset := FilterIfGiven(queryset, base, cs, params, "point", "point__id", "point");
    cs := cs + When(params, "point", "point__id", "point");
    queryset := FilterIfGiven(queryset, base, cs, params, "value", "value", "value");
    cs := cs + When(params, "value", "value", "value");
  }

  method EspectraView(db: Database, user: User, params: QueryParams) returns (queryset: Listing)
    ensures queryset == Narrow(EspectraBase(db, user), SampleFilters(params))
  {
    var base: Listing;
    if !(user.isStaff || user.isSuperuser) {
      if !CompanyStored(db, user) {
        base := Raised(DoesNotExist(CompanyModel));
      } else {
        var espectra := LeavesOfCompany(db, user.company, EspectraModel);
        base := Rows(EspectraModel, espectra);
      }
    } else {
      base := Objects(db, TendencyModel);
    }
    queryset := NarrowSamples(base, params);
  }

  method TimeSignalView(db: Database, user: User, params: QueryParams) returns (queryset: Listing)
    ensures queryset == Narrow(TimeSignalBase(db, user), SampleFilters(params))
  {
    var base: Listing;
    if !(user.isStaff || user.isSuperuser) {
      if !CompanyStored(db, user) {
        base := Raised(DoesNotExist(CompanyModel));
      } else {
        var signals := LeavesOfCompany(db, user.company, TimeSignalModel);
        base := Rows(TimeSignalModel, signals);
      }
    } else {
      base := Objects(db, TendencyModel);
    }
    queryset := NarrowSamples(base, params);
  }
}
