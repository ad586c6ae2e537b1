/**
 * What the views do where they read the wrong table, the wrong field or
 * the wrong parameter: the staff branches of MeasurementView and
 * TermoImageView start from the Image table and those of EspectraView and
 * TimeSignalView from the Tendency table; the staff branch of TendencyView
 * reads an attribute that does not exist; PointView filters on a field
 * Point does not have; MachineView compares `name` and `machine_type` with
 * the `identifier` parameter; CompanyView compares `nit` with the `name`
 * parameter; and for a plain user the City, Company and Profile views start
 * from a single model instance, on which no filter can be applied.
 */
module Quirks {
  import opened Wrappers
  import opened Orm
  import opened Views

  // ---------------------------------------------------------------------
  // Staff and superusers.
  // ---------------------------------------------------------------------

  /** The parameters of MeasurementView that name a field Image does not have. */
  const MeasurementOnlyKeys: set<string> :=
    {"severity", "date", "analysis", "recomendation", "revised", "resolved",
     "measurement_type", "engineer_one", "engineer_two"}

  /**
   * The first measurement-only parameter present, in the order the view
   * applies them, as the field its filter names.
   */
  function FirstMeasurementOnly(p: QueryParams): (r: Option<string>)
    ensures r.None? <==> forall k :: k in MeasurementOnlyKeys ==> k !in p
    ensures r.Some? ==> r.value !in Fields(ImageModel)
  {
    if "severity" in p then Some("severity")
    else if "date" in p then Some("date")
    else if "analysis" in p then Some("analysis")
    else if "recomendation" in p then Some("recomendation")
    else if "revised" in p then Some("revised")
    else if "resolved" in p then Some("resolved")
    else if "measurement_type" in p then Some("measurement_type")
    else if "engineer_one" in p then Some("engineer_one__id")
    else if "engineer_two" in p then Some("engineer_two__id")
    else None
  }

  lemma ImageFieldNames()
    ensures "id" in Fields(ImageModel) && "machine" in Fields(ImageModel) && "machine__id" in Fields(ImageModel)
    ensures "severity" !in Fields(ImageModel) && "date" !in Fields(ImageModel) && "analysis" !in Fields(ImageModel)
    ensures "recomendation" !in Fields(ImageModel) && "revised" !in Fields(ImageModel) && "resolved" !in Fields(ImageModel)
    ensures "measurement_type" !in Fields(ImageModel) && "engineer_one__id" !in Fields(ImageModel)
    ensures "engineer_two__id" !in Fields(ImageModel) && "image_type" !in Fields(ImageModel)
    ensures "measurement__id" !in Fields(ImageModel)
  {
  }

  /** The first seven filters of MeasurementView, run against Image. */
  lemma MeasurementPrefixOnImage(p: QueryParams)
    ensures FirstMissing(ImageModel, When(p, "id", "id", "id") + When(p, "severity", "severity", "severity") + When(p, "date", "date", "date") + When(p, "analysis", "analysis", "analysis") + When(p, "recomendation", "recomendation", "recomendation") + When(p, "revised", "revised", "revised") + When(p, "resolved", "resolved", "resolved")) ==
            if "severity" in p then Some("severity")
            else if "date" in p then Some("date")
            else if "analysis" in p then Some("analysis")
            else if "recomendation" in p then Some("recomendation")
            else if "revised" in p then Some("revised")
            else if "resolved" in p then Some("resolved")
            else None
  {
    ImageFieldNames();
    var c1 := When(p, "id", "id", "id");
    assert FirstMissing(ImageModel, c1) == None;
    var c2 := c1 + When(p, "severity", "severity", "severity");
    assert FirstMissing(ImageModel, c2) == if "severity" in p then Some("severity") else None by {
      FirstMissingWhen(ImageModel, c1, p, "severity", "severity", "severity");
    }
    var c3 := c2 + When(p, "date", "date", "date");
    assert FirstMissing(ImageModel, c3) ==
           if "severity" in p then Some("severity") else if "date" in p then Some("date") else None by {
      FirstMissingWhen(ImageModel, c2, p, "date", "date", "date");
    }
    var c4 := c3 + When(p, "analysis", "analysis", "analysis");
    assert FirstMissing(ImageModel, c4) ==
           if FirstMissing(ImageModel, c3).Some? then FirstMissing(ImageModel, c3)
           else if "analysis" in p then Some("analysis") else None by {
      FirstMissingWhen(ImageModel, c3, p, "analysis", "analysis", "analysis");
    }
    var c5 := c4 + When(p, "recomendation", "recomendation", "recomendation");
    assert FirstMissing(ImageModel, c5) ==
           if FirstMissing(ImageModel, c4).Some? then FirstMissing(ImageModel, c4)
           else if "recomendation" in p then Some("recomendation") else None by {
      FirstMissingWhen(ImageModel, c4, p, "recomendation", "recomendation", "recomendation");
    }
    var c6 := c5 + When(p, "revised", "revised", "revised");
    assert FirstMissing(ImageModel, c6) ==
           if FirstMissing(ImageModel, c5).Some? then FirstMissing(ImageModel, c5)
           else if "revised" in p then Some("revised") else None by {
      FirstMissingWhen(ImageModel, c5, p, "revised", "revised", "revised");
    }
    var c7 := c6 + When(p, "resolved", "resolved", "resolved");
    assert FirstMissing(ImageModel, c7) ==
           if FirstMissing(ImageModel, c6).Some? then FirstMissing(ImageModel, c6)
           else if "resolved" in p then Some("resolved") else None by {
      FirstMissingWhen(ImageModel, c6, p, "resolved", "resolved", "resolved");
    }
  }

  /** Run against Image, MeasurementView's first failing filter is the first measurement-only one. */
  lemma MeasurementFiltersOnImage(p: QueryParams)
    ensures FirstMissing(ImageModel, MeasurementFilters(p)) == FirstMeasurementOnly(p)
  {
    ImageFieldNames();
    var c7 := When(p, "id", "id", "id") + When(p, "severity", "severity", "severity") + When(p, "date", "date", "date") + When(p, "analysis", "analysis", "analysis") + When(p, "recomendation", "recomendation", "recomendation") + When(p, "revised", "revised", "revised") + When(p, "resolved", "resolved", "resolved");
    MeasurementPrefixOnImage(p);
    var c8 := c7 + When(p, "measurement_type", "measurement_type", "measurement_type");
    assert FirstMissing(ImageModel, c8) ==
           if FirstMissing(ImageModel, c7).Some? then FirstMissing(ImageModel, c7)
           else if "measurement_type" in p then Some("measurement_type") else None by {
      FirstMissingWhen(ImageModel, c7, p, "measurement_type", "measurement_type", "measurement_type");
    }
    var c9 := c8 + When(p, "machine", "machine__id", "machine");
    assert FirstMissing(ImageModel, c9) == FirstMissing(ImageModel, c8) by {
      FirstMissingWhen(ImageModel, c8, p, "machine", "machine__id", "machine");
    }
    var c10 := c9 + When(p, "engineer_one", "engineer_one__id", "engineer_one");
    assert FirstMissing(ImageModel, c10) ==
           if FirstMissing(ImageModel, c9).Some? then FirstMissing(ImageModel, c9)
           else if "engineer_one" in p then Some("engineer_one__id") else None by {
      FirstMissingWhen(ImageModel, c9, p, "engineer_one", "engineer_one__id", "engineer_one");
    }
    var c11 := c10 + When(p, "engineer_two", "engineer_two__id", "engineer_two");
    assert FirstMissing(ImageModel, c11) ==
           if FirstMissing(ImageModel, c10).Some? then FirstMissing(ImageModel, c10)
           else if "engineer_two" in p then Some("engineer_two__id") else None by {
      FirstMissingWhen(ImageModel, c10, p, "engineer_two", "engineer_two__id", "engineer_two");
    }
    assert c11 == MeasurementFilters(p);
  }

  /**
   * For staff, MeasurementView answers from the Image table: Image rows
   * when no measurement-only parameter is present, otherwise a FieldError
   * on the Image model naming the first such field.
   */
  lemma StaffMeasurementView(db: Database, u: User, p: QueryParams)
    requires Privileged(u)
    ensures FirstMeasurementOnly(p).Some? ==>
            Narrow(MeasurementBase(db, u), MeasurementFilters(p)) ==
            Raised(FieldError(ImageModel, FirstMeasurementOnly(p).value))
    ensures FirstMeasurementOnly(p).None? ==>
            Narrow(MeasurementBase(db, u), MeasurementFilters(p)).Rows? &&
            Narrow(MeasurementBase(db, u), MeasurementFilters(p)).model == ImageModel &&
            forall x :: x in Narrow(MeasurementBase(db, u), MeasurementFilters(p)).rows ==> x in Table(db, ImageModel)
  {
    MeasurementFiltersOnImage(p);
    if FirstMeasurementOnly(p).None? {
      NarrowKnown(MeasurementBase(db, u), MeasurementFilters(p));
    }
  }

  /** Run against Image, TermoImageView's first failing filter is `image_type`, then `measurement__id`. */
  lemma TermoImageFiltersOnImage(p: QueryParams)
    ensures FirstMissing(ImageModel, TermoImageFilters(p)) ==
            if "image_type" in p then Some("image_type")
            else if "measurement" in p then Some("measurement__id")
            else None
  {
    ImageFieldNames();
    var c1 := When(p, "id", "id", "id");
    assert FirstMissing(ImageModel, c1) == None;
    var c2 := c1 + When(p, "image_type", "image_type", "image_type");
    assert FirstMissing(ImageModel, c2) == if "image_type" in p then Some("image_type") else None by {
      FirstMissingWhen(ImageModel, c1, p, "image_type", "image_type", "image_type");
    }
    var c3 := c2 + When(p, "machine", "machine", "machine");
    assert FirstMissing(ImageModel, c3) == FirstMissing(ImageModel, c2) by {
      FirstMissingWhen(ImageModel, c2, p, "machine", "machine", "machine");
    }
    var c4 := c3 + When(p, "measurement", "measurement__id", "measurement");
    assert FirstMissing(ImageModel, c4) ==
           if FirstMissing(ImageModel, c3).Some? then FirstMissing(ImageModel, c3)
           else if "measurement" in p then Some("measurement__id") else None by {
      FirstMissingWhen(ImageModel, c3, p, "measurement", "measurement__id", "measurement");
    }
    assert c4 == TermoImageFilters(p);
  }

  /**
   * For staff, TermoImageView answers from the Image table: the
   * `image_type` and `measurement` parameters raise a FieldError, and
   * otherwise it returns Image rows.
   */
  lemma StaffTermoImageView(db: Database, u: User, p: QueryParams)
    requires Privileged(u)
    ensures Narrow(TermoImageBase(db, u), TermoImageFilters(p)).Raised? <==>
            "image_type" in p || "measurement" in p
    ensures Narrow(TermoImageBase(db, u), TermoImageFilters(p)).Raised? ==>
            Narrow(TermoImageBase(db, u), TermoImageFilters(p)).error ==
            FieldError(ImageModel, if "image_type" in p then "image_type" else "measurement__id")
    ensures Narrow(TermoImageBase(db, u), TermoImageFilters(p)).Rows? ==>
            Narrow(TermoImageBase(db, u), TermoImageFilters(p)).model == ImageModel &&
            forall x :: x in Narrow(TermoImageBase(db, u), TermoImageFilters(p)).rows ==> x in Table(db, ImageModel)
  {
    TermoImageFiltersOnImage(p);
    if !("image_type" in p || "measurement" in p) {
      NarrowKnown(TermoImageBase(db, u), TermoImageFilters(p));
    }
  }

  lemma TendencyFieldNames()
    ensures "id" in Fields(TendencyModel) && "point__id" in Fields(TendencyModel) && "value" in Fields(TendencyModel)
    ensures "identifier" !in Fields(TendencyModel)
  {
  }

  /** Run against Tendency, the only failing filter of the sample views is `identifier`. */
  lemma SampleFiltersOnTendency(p: QueryParams)
    ensures FirstMissing(TendencyModel, SampleFilters(p)) == if "identifier" in p then Some("identifier") else None
  {
    TendencyFieldNames();
    var c1 := When(p, "id", "id", "id");
    assert FirstMissing(TendencyModel, c1) == None;
    var c2 := c1 + When(p, "identifier", "identifier", "identifier");
    assert FirstMissing(TendencyModel, c2) == if "identifier" in p then Some("identifier") else None by {
      FirstMissingWhen(TendencyModel, c1, p, "identifier", "identifier", "identifier");
    }
    var c3 := c2 + When(p, "point", "point__id", "point");
    assert FirstMissing(TendencyModel, c3) == FirstMissing(TendencyModel, c2) by {
      FirstMissingWhen(TendencyModel, c2, p, "point", "point__id", "point");
    }
    var c4 := c3 + When(p, "value", "value", "value");
    assert FirstMissing(TendencyModel, c4) == FirstMissing(TendencyModel, c3) by {
      FirstMissingWhen(TendencyModel, c3, p, "value", "value", "value");
    }
    assert c4 == SampleFilters(p);
  }

  /**
   * For staff, EspectraView and TimeSignalView answer from the Tendency
   * table, and the `identifier` parameter, which Tendency lacks, raises.
   */
  lemma StaffSamplesAreTendencies(db: Database, u: User, p: QueryParams)
    requires Privileged(u)
    ensures EspectraBase(db, u) == TimeSignalBase(db, u) == Objects(db, TendencyModel)
    ensures "identifier" in p ==>
            Narrow(EspectraBase(db, u), SampleFilters(p)) == Raised(FieldError(TendencyModel, "identifier"))
    ensures "identifier" !in p ==>
            Narrow(EspectraBase(db, u), SampleFilters(p)).Rows? &&
            Narrow(EspectraBase(db, u), SampleFilters(p)).model == TendencyModel &&
            forall x :: x in Narrow(EspectraBase(db, u), SampleFilters(p)).rows ==> x in Table(db, TendencyModel)
  {
    SampleFiltersOnTendency(p);
    if "identifier" !in p {
      NarrowKnown(EspectraBase(db, u), SampleFilters(p));
    }
  }

  /** For staff, TendencyView raises AttributeError whatever the parameters. */
  lemma StaffTendencyRaises(db: Database, u: User, p: QueryParams)
    requires Privileged(u)
    ensures Narrow(TendencyBase(db, u), TendencyFilters(p)) == Raised(AttributeError("Tendency"))
  {
  }

  // ---------------------------------------------------------------------
  // Every caller.
  // ---------------------------------------------------------------------

  lemma PointFieldNames()
    ensures "id" in Fields(PointModel) && "number" in Fields(PointModel) && "position" in Fields(PointModel)
    ensures "measurement__id" in Fields(PointModel) && "point_typed" !in Fields(PointModel)
  {
  }

  /** The only failing filter of PointView is the one `point_type` adds. */
  lemma PointFiltersOnPoint(p: QueryParams)
    ensures FirstMissing(PointModel, PointFilters(p)) == if "point_type" in p then Some("point_typed") else None
  {
    PointFieldNames();
    var c1 := When(p, "id", "id", "id");
    assert FirstMissing(PointModel, c1) == None;
    var c2 := c1 + When(p, "number", "number", "number");
    assert FirstMissing(PointModel, c2) == None by {
      FirstMissingWhen(PointModel, c1, p, "number", "number", "number");
    }
    var c3 := c2 + When(p, "position", "position", "position");
    assert FirstMissing(PointModel, c3) == None by {
      FirstMissingWhen(PointModel, c2, p, "position", "position", "position");
    }
    var c4 := c3 + When(p, "point_type", "point_typed", "point_type");
    assert FirstMissing(PointModel, c4) == if "point_type" in p then Some("point_typed") else None by {
      FirstMissingWhen(PointModel, c3, p, "point_type", "point_typed", "point_type");
    }
    var c5 := c4 + When(p, "measurement", "measurement__id", "measurement");
    assert FirstMissing(PointModel, c5) == FirstMissing(PointModel, c4) by {
      FirstMissingWhen(PointModel, c4, p, "measurement", "measurement__id", "measurement");
    }
    assert c5 == PointFilters(p);
  }

  /**
   * The `point_type` parameter makes PointView raise, for every caller:
   * FieldError once the base is read, and DoesNotExist before that for a
   * plain user whose company is not stored.
   */
  lemma PointTypeRaises(db: Database, u: User, p: QueryParams)
    requires "point_type" in p
    ensures Narrow(PointBase(db, u), PointFilters(p)) ==
            if Privileged(u) || CompanyStored(db, u) then Raised(FieldError(PointModel, "point_typed"))
            else Raised(DoesNotExist(CompanyModel))
  {
    PointFiltersOnPoint(p);
    ScopedNarrow(db, u, Rows(PointModel, CompanyPoints(db, u.company)), PointFilters(p));
  }

  /** The conditions MachineView's `name` and `machine_type` parameters add. */
  lemma MachineIdentifierConditions(p: QueryParams)
    ensures "name" in p ==> Cond("name", ParamValue(Get(p, "identifier"))) in MachineFilters(p)
    ensures "machine_type" in p ==> Cond("machine_type", ParamValue(Get(p, "identifier"))) in MachineFilters(p)
  {
    assert "name" in p ==> Cond("name", ParamValue(Get(p, "identifier"))) in When(p, "name", "name", "identifier");
    assert "machine_type" in p ==>
           Cond("machine_type", ParamValue(Get(p, "identifier"))) in When(p, "machine_type", "machine_type", "identifier");
  }

  /**
   * MachineView compares `name` and `machine_type` with the value of the
   * `identifier` parameter: every row returned has them equal to it.
   */
  lemma MachineFiltersReadIdentifier(db: Database, u: User, p: QueryParams)
    ensures Narrow(MachineBase(db, u), MachineFilters(p)).Rows? <==> Privileged(u) || CompanyStored(db, u)
    ensures "name" in p && Narrow(MachineBase(db, u), MachineFilters(p)).Rows? ==>
            forall x :: x in Narrow(MachineBase(db, u), MachineFilters(p)).rows ==>
                        Lookup(x, "name") == Some(ParamValue(Get(p, "identifier")))
    ensures "machine_type" in p && Narrow(MachineBase(db, u), MachineFilters(p)).Rows? ==>
            forall x :: x in Narrow(MachineBase(db, u), MachineFilters(p)).rows ==>
                        Lookup(x, "machine_type") == Some(ParamValue(Get(p, "identifier")))
  {
    ScopedNarrow(db, u, Rows(MachineModel, CompanyMachines(db, u.company)), MachineFilters(p));
    if Privileged(u) || CompanyStored(db, u) {
      MachineFiltersKnown(p);
      NarrowKnown(MachineBase(db, u), MachineFilters(p));
      MachineIdentifierConditions(p);
    }
  }

  /**
   * Without `identifier`, a `name` or `machine_type` parameter is a test
   * for NULL on a field that always has a value: nothing is returned.
   */
  lemma MachineFiltersWithoutIdentifier(db: Database, u: User, p: QueryParams)
    requires ("name" in p || "machine_type" in p) && "identifier" !in p
    ensures Narrow(MachineBase(db, u), MachineFilters(p)).Rows? <==> Privileged(u) || CompanyStored(db, u)
    ensures Narrow(MachineBase(db, u), MachineFilters(p)).Rows? ==> Narrow(MachineBase(db, u), MachineFilters(p)).rows == []
  {
    ScopedNarrow(db, u, Rows(MachineModel, CompanyMachines(db, u.company)), MachineFilters(p));
    if Privileged(u) || CompanyStored(db, u) {
      MachineFiltersKnown(p);
      NarrowKnown(MachineBase(db, u), MachineFilters(p));
      MachineIdentifierConditions(p);
      var c := if "name" in p then Cond("name", Null) else Cond("machine_type", Null);
      forall x | x in MachineBase(db, u).rows ensures Lookup(x, c.field) != Some(c.value) {
        MachineFieldsHaveValues(x);
      }
      NarrowNoMatch(MachineBase(db, u), MachineFilters(p), c);
    }
  }

  /** A machine's name and type are never NULL. */
  lemma MachineFieldsHaveValues(x: Record)
    requires ModelOf(x) == MachineModel
    ensures Lookup(x, "name") != Some(Null) && Lookup(x, "machine_type") != Some(Null)
  {
  }

  /** The value of MachineView's `name` parameter is never read: only its presence matters. */
  lemma MachineNameValueIgnored(db: Database, u: User, p: QueryParams, v: string)
    requires "name" in p
    ensures Narrow(MachineBase(db, u), MachineFilters(p["name" := v])) ==
            Narrow(MachineBase(db, u), MachineFilters(p))
  {
    var q := p["name" := v];
    assert Get(q, "id") == Get(p, "id") && Get(q, "company") == Get(p, "company");
    assert Get(q, "identifier") == Get(p, "identifier");
    assert MachineFilters(q) == MachineFilters(p);
  }

  /**
   * CompanyView compares `nit` with the `name` parameter: every company it
   * returns has name and nit both equal to it.
   */
  lemma CompanyNitReadsName(db: Database, u: User, p: QueryParams)
    requires Privileged(u) && "name" in p
    ensures Narrow(CompanyBase(db, u), CompanyFilters(p)).Rows?
    ensures forall x :: x in Narrow(CompanyBase(db, u), CompanyFilters(p)).rows ==>
                        Lookup(x, "name") == Some(Val(p["name"])) && Lookup(x, "nit") == Some(Val(p["name"]))
  {
    CompanyFiltersKnown(p);
    NarrowKnown(CompanyBase(db, u), CompanyFilters(p));
    assert Cond("name", Val(p["name"])) in When(p, "name", "name", "name");
    assert Cond("nit", Val(p["name"])) in When(p, "name", "nit", "name");
    assert Cond("name", Val(p["name"])) in CompanyFilters(p);
    assert Cond("nit", Val(p["name"])) in CompanyFilters(p);
  }

  /** A `nit` parameter is never read by CompanyView. */
  lemma CompanyNitParameterIgnored(p: QueryParams, v: string)
    ensures CompanyFilters(p["nit" := v]) == CompanyFilters(p)
  {
    var q := p["nit" := v];
    assert Get(q, "name") == Get(p, "name") && Get(q, "address") == Get(p, "address");
    assert Get(q, "rut_address") == Get(p, "rut_address") && Get(q, "pbx") == Get(p, "pbx");
    assert Get(q, "city") == Get(p, "city") && Get(q, "rut_city") == Get(p, "rut_city");
  }

  /** An `id` that no stored row has gives MachineView an empty answer. */
  lemma MachineUnknownId(db: Database, u: User, p: QueryParams)
    requires "id" in p
    requires forall x :: x in db.records ==> IdOf(x) != p["id"]
    ensures Narrow(MachineBase(db, u), MachineFilters(p)).Rows? <==> Privileged(u) || CompanyStored(db, u)
    ensures Narrow(MachineBase(db, u), MachineFilters(p)).Rows? ==> Narrow(MachineBase(db, u), MachineFilters(p)).rows == []
  {
    ScopedNarrow(db, u, Rows(MachineModel, CompanyMachines(db, u.company)), MachineFilters(p));
    if Privileged(u) || CompanyStored(db, u) {
      MachineFiltersKnown(p);
      NarrowKnown(MachineBase(db, u), MachineFilters(p));
      assert Cond("id", Val(p["id"])) in When(p, "id", "id", "id");
      assert Cond("id", Val(p["id"])) in MachineFilters(p);
      NarrowUnknownId(MachineBase(db, u), MachineFilters(p), p["id"]);
    }
  }

  // ---------------------------------------------------------------------
  // Plain users of the City, Company and Profile views.
  // ---------------------------------------------------------------------

  /**
   * The plain user's city: the City whose id is the city key of the
   * user's company.  Any `name` parameter then raises AttributeError.
   */
  lemma CityViewOfPlainUser(db: Database, u: User, p: QueryParams)
    requires !Privileged(u)
    ensures CityBase(db, u).Instance? ==>
            CompanyOf(db, u).Instance? && ModelOf(CityBase(db, u).obj) == CityModel &&
            Lookup(CityBase(db, u).obj, "id") == Some(FieldOf(CompanyOf(db, u).obj, "city"))
    ensures Narrow(CityBase(db, u), CityFilters(p)) ==
            if "name" in p && CityBase(db, u).Instance? then Raised(AttributeError("filter")) else CityBase(db, u)
  {
  }

  /**
   * The plain user's company: the Company whose id is the user's company
   * key.  Any of CompanyView's parameters then raises AttributeError.
   */
  lemma CompanyViewOfPlainUser(db: Database, u: User, p: QueryParams)
    requires !Privileged(u)
    ensures CompanyBase(db, u).Instance? ==>
            ModelOf(CompanyBase(db, u).obj) == CompanyModel && IdOf(CompanyBase(db, u).obj) == u.company
    ensures Narrow(CompanyBase(db, u), CompanyFilters(p)) ==
            if CompanyBase(db, u).Instance? &&
               ("name" in p || "address" in p || "rut_address" in p || "pbx" in p || "city" in p || "rut_city" in p)
            then Raised(AttributeError("filter")) else CompanyBase(db, u)
  {
    if CompanyBase(db, u).Instance? {
      var co := CompanyBase(db, u).obj;
      assert Lookup(co, "id") == Some(Val(u.company));
    }
  }

  /**
   * The plain user's profile: the Profile whose user key is the user's id.
   * A `name` or `id` parameter then raises AttributeError.
   */
  lemma ProfileViewOfPlainUser(db: Database, u: User, p: QueryParams)
    requires !Privileged(u)
    ensures ProfileBase(db, u).Instance? ==>
            ModelOf(ProfileBase(db, u).obj) == ProfileModel && Lookup(ProfileBase(db, u).obj, "user") == Some(Val(u.id))
    ensures Narrow(ProfileBase(db, u), ProfileFilters(p)) ==
            if ProfileBase(db, u).Instance? && ("name" in p || "id" in p)
            then Raised(AttributeError("filter")) else ProfileBase(db, u)
  {
  }
}
