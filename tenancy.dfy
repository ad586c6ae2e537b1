/**
 * What the views promise a caller who is neither staff nor superuser:
 * "company is always filtered to prevent users from seeing unauthorized
 * data".  The ownership of a record is defined here independently of the
 * views, by following its keys up to a machine of the caller's company.
 * The views keep that promise only while every level of the chain is
 * non-empty: the disjunction they build starts from the empty `Q()`, which
 * matches every row, so a company without machines (or a chain without
 * measurements or points) sees every row of the next table.  The corrected
 * disjunction, which starts from a condition that matches nothing, keeps
 * the promise for every database.
 */
module Tenancy {
  import opened Wrappers
  import opened Orm
  import opened Views

  // ---------------------------------------------------------------------
  // Ownership, defined by following the foreign keys.
  // ---------------------------------------------------------------------

  ghost predicate OwnsMachine(db: Database, c: Id, x: Record)
  {
    x in Table(db, MachineModel) && Lookup(x, "company") == Some(Val(c))
  }

  ghost predicate OwnsImage(db: Database, c: Id, x: Record)
  {
    x in Table(db, ImageModel) &&
    exists m :: OwnsMachine(db, c, m) && Lookup(x, "machine") == Some(Val(IdOf(m)))
  }

  ghost predicate OwnsMeasurement(db: Database, c: Id, x: Record)
  {
    x in Table(db, MeasurementModel) &&
    exists m :: OwnsMachine(db, c, m) && Lookup(x, "machine") == Some(Val(IdOf(m)))
  }

  ghost predicate OwnsTermoImage(db: Database, c: Id, x: Record)
  {
    x in Table(db, TermoImageModel) &&
    exists me :: OwnsMeasurement(db, c, me) && Lookup(x, "measurement") == Some(Val(IdOf(me)))
  }

  ghost predicate OwnsPoint(db: Database, c: Id, x: Record)
  {
    x in Table(db, PointModel) &&
    exists me :: OwnsMeasurement(db, c, me) && Lookup(x, "measurement") == Some(Val(IdOf(me)))
  }

  /** A Tendency, Espectra or TimeSignal row of a point of the company. */
  ghost predicate OwnsLeaf(db: Database, c: Id, m: Model, x: Record)
  {
    x in Table(db, m) &&
    exists pt :: OwnsPoint(db, c, pt) && Lookup(x, "point") == Some(Val(IdOf(pt)))
  }

  // ---------------------------------------------------------------------
  // The corrected disjunction: start from a condition that matches nothing.
  // ---------------------------------------------------------------------

  /** `q = Q(pk__in=[])` followed by `q |= Q(f=p)` for each parent `p`. */
  function NothingOver(f: string, parents: seq<Record>): Q
  {
    if parents == [] then AnyOf([])
    else Or(NothingOver(f, parents[..|parents| - 1]), Cond(f, Val(IdOf(parents[|parents| - 1]))))
  }

  /** The corrected disjunction matches exactly the rows that refer to a parent. */
  lemma {:induction false} NothingOverMatches(f: string, parents: seq<Record>, r: Record)
    ensures MatchesQ(r, NothingOver(f, parents)) <==>
            exists p :: p in parents && Lookup(r, f) == Some(Val(IdOf(p)))
  {
    if parents != [] {
      var init := parents[..|parents| - 1];
      var last := parents[|parents| - 1];
      assert parents == init + [last];
      NothingOverMatches(f, init, r);
      var c := Cond(f, Val(IdOf(last)));
      assert NothingOver(f, parents) == Or(NothingOver(f, init), c);
      MatchesOr(r, NothingOver(f, init), c);
      assert NothingOver(f, init).AnyOf?;
      if Lookup(r, f) == Some(Val(IdOf(last))) {
        assert last in parents;
      }
      if exists p :: p in init && Lookup(r, f) == Some(Val(IdOf(p))) {
        var p :| p in init && Lookup(r, f) == Some(Val(IdOf(p)));
        assert p in parents;
      }
      if exists p :: p in parents && Lookup(r, f) == Some(Val(IdOf(p))) {
        var p :| p in parents && Lookup(r, f) == Some(Val(IdOf(p)));
        assert p in init || p == last;
      }
    }
  }

  lemma SelectNothingOver(rows: seq<Record>, f: string, parents: seq<Record>)
    ensures SelectQ(rows, NothingOver(f, parents)) == RefersTo(rows, f, parents)
  {
    forall x ensures MatchesQ(x, NothingOver(f, parents)) ==
                     exists p :: p in parents && Lookup(x, f) == Some(Val(IdOf(p))) {
      NothingOverMatches(f, parents, x);
    }
    WhereExt(rows, (x: Record) => MatchesQ(x, NothingOver(f, parents)),
             (x: Record) => exists p :: p in parents && Lookup(x, f) == Some(Val(IdOf(p))));
  }

  function OwnedImages(db: Database, c: Id): seq<Record>
  {
    SelectQ(Table(db, ImageModel), NothingOver("machine", CompanyMachines(db, c)))
  }

  function OwnedMeasurements(db: Database, c: Id): seq<Record>
  {
    SelectQ(Table(db, MeasurementModel), NothingOver("machine", CompanyMachines(db, c)))
  }

  function OwnedTermoImages(db: Database, c: Id): seq<Record>
  {
    SelectQ(Table(db, TermoImageModel), NothingOver("measurement", OwnedMeasurements(db, c)))
  }

  function OwnedPoints(db: Database, c: Id): seq<Record>
  {
    SelectQ(Table(db, PointModel), NothingOver("measurement", OwnedMeasurements(db, c)))
  }

  function OwnedLeaves(db: Database, c: Id, m: Model): seq<Record>
  {
    SelectQ(Table(db, m), NothingOver("point", OwnedPoints(db, c)))
  }

  lemma CompanyMachinesExact(db: Database, c: Id)
    ensures forall x :: x in CompanyMachines(db, c) <==> OwnsMachine(db, c, x)
  {
  }

  /** With the corrected disjunction the images are exactly the owned ones, for every database. */
  lemma OwnedImagesExact(db: Database, c: Id)
    ensures forall x :: x in OwnedImages(db, c) <==> OwnsImage(db, c, x)
  {
    SelectNothingOver(Table(db, ImageModel), "machine", CompanyMachines(db, c));
  }

  /** With the corrected disjunction the measurements are exactly the owned ones. */
  lemma OwnedMeasurementsExact(db: Database, c: Id)
    ensures forall x :: x in OwnedMeasurements(db, c) <==> OwnsMeasurement(db, c, x)
  {
    SelectNothingOver(Table(db, MeasurementModel), "machine", CompanyMachines(db, c));
  }

  lemma OwnedTermoImagesExact(db: Database, c: Id)
    ensures forall x :: x in OwnedTermoImages(db, c) <==> OwnsTermoImage(db, c, x)
  {
    OwnedMeasurementsExact(db, c);
    SelectNothingOver(Table(db, TermoImageModel), "measurement", OwnedMeasurements(db, c));
  }

  lemma OwnedPointsExact(db: Database, c: Id)
    ensures forall x :: x in OwnedPoints(db, c) <==> OwnsPoint(db, c, x)
  {
    OwnedMeasurementsExact(db, c);
    SelectNothingOver(Table(db, PointModel), "measurement", OwnedMeasurements(db, c));
  }

  lemma OwnedLeavesExact(db: Database, c: Id, m: Model)
    ensures forall x :: x in OwnedLeaves(db, c, m) <==> OwnsLeaf(db, c, m, x)
  {
    OwnedPointsExact(db, c);
    SelectNothingOver(Table(db, m), "point", OwnedPoints(db, c));
  }

  // ---------------------------------------------------------------------
  // The disjunctions as written, level by level: the owned rows while the
  // level above is non-empty, the whole table otherwise.
  // ---------------------------------------------------------------------

  lemma ImagesAsWritten(db: Database, c: Id)
    ensures SelectQ(Table(db, ImageModel), QOver("machine", CompanyMachines(db, c))) ==
            if CompanyMachines(db, c) == [] then Table(db, ImageModel) else OwnedImages(db, c)
  {
    SelectQOver(Table(db, ImageModel), "machine", CompanyMachines(db, c));
    SelectNothingOver(Table(db, ImageModel), "machine", CompanyMachines(db, c));
  }

  lemma MeasurementsAsWritten(db: Database, c: Id)
    ensures CompanyMeasurements(db, c) ==
            if CompanyMachines(db, c) == [] then Table(db, MeasurementModel) else OwnedMeasurements(db, c)
  {
    SelectQOver(Table(db, MeasurementModel), "machine", CompanyMachines(db, c));
    SelectNothingOver(Table(db, MeasurementModel), "machine", CompanyMachines(db, c));
  }

  lemma TermoImagesAsWritten(db: Database, c: Id)
    requires CompanyMachines(db, c) != []
    ensures CompanyTermoImages(db, c) ==
            if OwnedMeasurements(db, c) == [] then Table(db, TermoImageModel) else OwnedTermoImages(db, c)
  {
    MeasurementsAsWritten(db, c);
    SelectQOver(Table(db, TermoImageModel), "measurement", OwnedMeasurements(db, c));
    SelectNothingOver(Table(db, TermoImageModel), "measurement", OwnedMeasurements(db, c));
  }

  lemma PointsAsWritten(db: Database, c: Id)
    requires CompanyMachines(db, c) != []
    ensures CompanyPoints(db, c) ==
            if OwnedMeasurements(db, c) == [] then Table(db, PointModel) else OwnedPoints(db, c)
  {
    MeasurementsAsWritten(db, c);
    SelectQOver(Table(db, PointModel), "measurement", OwnedMeasurements(db, c));
    SelectNothingOver(Table(db, PointModel), "measurement", OwnedMeasurements(db, c));
  }

  lemma LeavesAsWritten(db: Database, c: Id, m: Model)
    requires CompanyMachines(db, c) != [] && OwnedMeasurements(db, c) != []
    ensures CompanyLeaves(db, c, m) ==
            if OwnedPoints(db, c) == [] then Table(db, m) else OwnedLeaves(db, c, m)
  {
    PointsAsWritten(db, c);
    SelectQOver(Table(db, m), "point", OwnedPoints(db, c));
    SelectNothingOver(Table(db, m), "point", OwnedPoints(db, c));
  }

  // ---------------------------------------------------------------------
  // The views, for a caller who is neither staff nor superuser.
  // ---------------------------------------------------------------------

  /** `user.company` is found exactly when a Company row has the caller's company id. */
  lemma CompanyStoredExact(db: Database, u: User)
    ensures CompanyStored(db, u) <==> exists x :: x in Table(db, CompanyModel) && IdOf(x) == u.company
  {
    if !CompanyStored(db, u) {
      forall x | x in Table(db, CompanyModel) ensures IdOf(x) != u.company {
        assert Lookup(x, "id") == Some(Val(IdOf(x)));
      }
    }
  }

  /**
   * MachineView raises DoesNotExist exactly when the caller's company is
   * not stored, and otherwise returns only the company's machines.
   */
  lemma MachineViewIsolated(db: Database, u: User, p: QueryParams)
    requires !Privileged(u)
    ensures Narrow(MachineBase(db, u), MachineFilters(p)).Rows? <==> CompanyStored(db, u)
    ensures !CompanyStored(db, u) ==> Narrow(MachineBase(db, u), MachineFilters(p)) == Raised(DoesNotExist(CompanyModel))
    ensures Narrow(MachineBase(db, u), MachineFilters(p)).Rows? ==>
              forall x :: x in Narrow(MachineBase(db, u), MachineFilters(p)).rows ==> OwnsMachine(db, u.company, x)
  {
    var rows := Rows(MachineModel, CompanyMachines(db, u.company));
    ScopedNarrow(db, u, rows, MachineFilters(p));
    MachineFiltersKnown(p);
    NarrowKnown(rows, MachineFilters(p));
  }

  /**
   * While the company has a machine, ImageView returns only its images,
   * or raises DoesNotExist when the company itself is not stored.
   */
  lemma ImageViewIsolated(db: Database, u: User, p: QueryParams)
    requires !Privileged(u) && CompanyMachines(db, u.company) != []
    ensures Narrow(ImageBase(db, u), ImageFilters(p)).Rows? <==> CompanyStored(db, u)
    ensures Narrow(ImageBase(db, u), ImageFilters(p)).Rows? ==>
              forall x :: x in Narrow(ImageBase(db, u), ImageFilters(p)).rows ==> OwnsImage(db, u.company, x)
  {
    var rows := Rows(ImageModel, SelectQ(Table(db, ImageModel), QOver("machine", CompanyMachines(db, u.company))));
    ScopedNarrow(db, u, rows, ImageFilters(p));
    ImagesAsWritten(db, u.company);
    OwnedImagesExact(db, u.company);
    ImageFiltersKnown(p);
    NarrowKnown(rows, ImageFilters(p));
  }

  /** While the company has a machine, MeasurementView returns only its measurements. */
  lemma MeasurementViewIsolated(db: Database, u: User, p: QueryParams)
    requires !Privileged(u) && CompanyMachines(db, u.company) != []
    ensures Narrow(MeasurementBase(db, u), MeasurementFilters(p)).Rows? <==> CompanyStored(db, u)
    ensures Narrow(MeasurementBase(db, u), MeasurementFilters(p)).Rows? ==>
              forall x :: x in Narrow(MeasurementBase(db, u), MeasurementFilters(p)).rows ==>
                            OwnsMeasurement(db, u.company, x)
  {
    var rows := Rows(MeasurementModel, CompanyMeasurements(db, u.company));
    ScopedNarrow(db, u, rows, MeasurementFilters(p));
    MeasurementsAsWritten(db, u.company);
    OwnedMeasurementsExact(db, u.company);
    MeasurementFiltersKnown(p);
    NarrowKnown(rows, MeasurementFilters(p));
  }

  /** While the company has a measurement, TermoImageView returns only its thermal images. */
  lemma TermoImageViewIsolated(db: Database, u: User, p: QueryParams)
    requires !Privileged(u) && CompanyMachines(db, u.company) != [] && OwnedMeasurements(db, u.company) != []
    ensures Narrow(TermoImageBase(db, u), TermoImageFilters(p)).Rows? <==> CompanyStored(db, u)
    ensures Narrow(TermoImageBase(db, u), TermoImageFilters(p)).Rows? ==>
              forall x :: x in Narrow(TermoImageBase(db, u), TermoImageFilters(p)).rows ==>
                            OwnsTermoImage(db, u.company, x)
  {
    var rows := Rows(TermoImageModel, CompanyTermoImages(db, u.company));
    ScopedNarrow(db, u, rows, TermoImageFilters(p));
    TermoImagesAsWritten(db, u.company);
    OwnedTermoImagesExact(db, u.company);
    TermoImageFiltersKnown(p);
    NarrowKnown(rows, TermoImageFilters(p));
  }

  /**
   * While the company has a measurement, PointView returns only its points,
   * unless the `point_type` parameter makes it raise.
   */
  lemma PointViewIsolated(db: Database, u: User, p: QueryParams)
    requires !Privileged(u) && CompanyMachines(db, u.company) != [] && OwnedMeasurements(db, u.company) != []
    requires "point_type" !in p
    ensures Narrow(PointBase(db, u), PointFilters(p)).Rows? <==> CompanyStored(db, u)
    ensures Narrow(PointBase(db, u), PointFilters(p)).Rows? ==>
              forall x :: x in Narrow(PointBase(db, u), PointFilters(p)).rows ==> OwnsPoint(db, u.company, x)
  {
    var rows := Rows(PointModel, CompanyPoints(db, u.company));
    ScopedNarrow(db, u, rows, PointFilters(p));
    PointsAsWritten(db, u.company);
    OwnedPointsExact(db, u.company);
    PointFiltersKnown(p);
    NarrowKnown(rows, PointFilters(p));
  }

  /** The base of the three leaf views, while the company has a point. */
  lemma LeavesIsolated(db: Database, c: Id, m: Model)
    requires CompanyMachines(db, c) != [] && OwnedMeasurements(db, c) != [] && OwnedPoints(db, c) != []
    ensures forall x :: x in CompanyLeaves(db, c, m) <==> OwnsLeaf(db, c, m, x)
  {
    LeavesAsWritten(db, c, m);
    OwnedLeavesExact(db, c, m);
  }

  lemma TendencyViewIsolated(db: Database, u: User, p: QueryParams)
    requires !Privileged(u)
    requires CompanyMachines(db, u.company) != [] && OwnedMeasurements(db, u.company) != []
    requires OwnedPoints(db, u.company) != []
    ensures Narrow(TendencyBase(db, u), TendencyFilters(p)).Rows? <==> CompanyStored(db, u)
    ensures Narrow(TendencyBase(db, u), TendencyFilters(p)).Rows? ==>
              forall x :: x in Narrow(TendencyBase(db, u), TendencyFilters(p)).rows ==>
                            OwnsLeaf(db, u.company, TendencyModel, x)
  {
    var rows := Rows(TendencyModel, CompanyLeaves(db, u.company, TendencyModel));
    ScopedNarrow(db, u, rows, TendencyFilters(p));
    LeavesIsolated(db, u.company, TendencyModel);
    TendencyFiltersKnown(p);
    NarrowKnown(rows, TendencyFilters(p));
  }

  lemma EspectraViewIsolated(db: Database, u: User, p: QueryParams)
    requires !Privileged(u)
    requires CompanyMachines(db, u.company) != [] && OwnedMeasurements(db, u.company) != []
    requires OwnedPoints(db, u.company) != []
    ensures Narrow(EspectraBase(db, u), SampleFilters(p)).Rows? <==> CompanyStored(db, u)
    ensures Narrow(EspectraBase(db, u), SampleFilters(p)).Rows? ==>
              forall x :: x in Narrow(EspectraBase(db, u), SampleFilters(p)).rows ==>
                            OwnsLeaf(db, u.company, EspectraModel, x)
  {
    var rows := Rows(EspectraModel, CompanyLeaves(db, u.company, EspectraModel));
    ScopedNarrow(db, u, rows, SampleFilters(p));
    LeavesIsolated(db, u.company, EspectraModel);
    SampleFiltersKnown(p);
    NarrowKnown(rows, SampleFilters(p));
  }

  lemma TimeSignalViewIsolated(db: Database, u: User, p: QueryParams)
    requires !Privileged(u)
    requires CompanyMachines(db, u.company) != [] && OwnedMeasurements(db, u.company) != []
    requires OwnedPoints(db, u.company) != []
    ensures Narrow(TimeSignalBase(db, u), SampleFilters(p)).Rows? <==> CompanyStored(db, u)
    ensures Narrow(TimeSignalBase(db, u), SampleFilters(p)).Rows? ==>
              forall x :: x in Narrow(TimeSignalBase(db, u), SampleFilters(p)).rows ==>
                            OwnsLeaf(db, u.company, TimeSignalModel, x)
  {
    var rows := Rows(TimeSignalModel, CompanyLeaves(db, u.company, TimeSignalModel));
    ScopedNarrow(db, u, rows, SampleFilters(p));
    LeavesIsolated(db, u.company, TimeSignalModel);
    SampleFiltersKnown(p);
    NarrowKnown(rows, SampleFilters(p));
  }

  // ---------------------------------------------------------------------
  // The leak: an empty level above gives the whole table below, once the
  // caller's company has been read.
  // ---------------------------------------------------------------------

  /** A company without machines sees every image and every measurement. */
  lemma MachinelessCompanySeesAll(db: Database, u: User)
    requires !Privileged(u) && CompanyMachines(db, u.company) == []
    ensures ImageBase(db, u) == Scoped(db, u, Objects(db, ImageModel))
    ensures MeasurementBase(db, u) == Scoped(db, u, Objects(db, MeasurementModel))
  {
    ImagesAsWritten(db, u.company);
    MeasurementsAsWritten(db, u.company);
  }

  /** A company whose machines have no measurement sees every thermal image and every point. */
  lemma MeasurementlessCompanySeesAll(db: Database, u: User)
    requires !Privileged(u) && CompanyMachines(db, u.company) != [] && OwnedMeasurements(db, u.company) == []
    ensures TermoImageBase(db, u) == Scoped(db, u, Objects(db, TermoImageModel))
    ensures PointBase(db, u) == Scoped(db, u, Objects(db, PointModel))
  {
    TermoImagesAsWritten(db, u.company);
    PointsAsWritten(db, u.company);
  }

  /** A company whose measurements have no point sees every leaf row. */
  lemma PointlessCompanySeesAll(db: Database, u: User)
    requires !Privileged(u) && CompanyMachines(db, u.company) != [] && OwnedMeasurements(db, u.company) != []
    requires OwnedPoints(db, u.company) == []
    ensures TendencyBase(db, u) == Scoped(db, u, Objects(db, TendencyModel))
    ensures EspectraBase(db, u) == Scoped(db, u, Objects(db, EspectraModel))
    ensures TimeSignalBase(db, u) == Scoped(db, u, Objects(db, TimeSignalModel))
  {
    LeavesAsWritten(db, u.company, TendencyModel);
    LeavesAsWritten(db, u.company, EspectraModel);
    LeavesAsWritten(db, u.company, TimeSignalModel);
  }

  /**
   * A concrete store: companies "1" and "2", a machine "m" of company "2"
   * with one measurement "e"; company "1" has no machine.
   */
  const LeakCompanyOne := CompanyRow(Company("1", "", "", "", "", "", "", ""))
  const LeakCompanyTwo := CompanyRow(Company("2", "", "", "", "", "", "", ""))
  const LeakMachine := MachineRow(Machine("m", "2", "", "", ""))
  const LeakMeasurement := MeasurementRow(Measurement("e", "m", "", "", "", "", "", "", "", None, None))
  const LeakStore := Database([LeakCompanyOne, LeakCompanyTwo, LeakMachine, LeakMeasurement])
  /** A plain user of company "1". */
  const LeakUser := User("u", false, false, "1")

  /** The user's company is stored, so reading `user.company` succeeds. */
  lemma LeakStoreHasCompanyOne()
    ensures CompanyStored(LeakStore, LeakUser)
  {
    assert LeakCompanyOne in Table(LeakStore, CompanyModel);
    CompanyStoredExact(LeakStore, LeakUser);
  }

  /** The only machine of the store is "m". */
  lemma LeakStoreMachines()
    ensures forall x :: x in Table(LeakStore, MachineModel) <==> x == LeakMachine
  {
    OneMachineAmongFour(LeakCompanyOne, LeakCompanyTwo, LeakMachine, LeakMeasurement);
  }

  /** In a store of four rows where only the third is a machine, that row is the Machine table. */
  lemma OneMachineAmongFour(a: Record, b: Record, m: Record, e: Record)
    requires ModelOf(a) != MachineModel && ModelOf(b) != MachineModel && ModelOf(e) != MachineModel
    requires ModelOf(m) == MachineModel
    ensures forall x :: x in Table(Database([a, b, m, e]), MachineModel) <==> x == m
  {
    assert m in Database([a, b, m, e]).records;
  }

  /** A company that no machine names has no machines. */
  lemma NoMachineOf(db: Database, c: Id)
    requires forall x :: x in Table(db, MachineModel) ==> Lookup(x, "company") != Some(Val(c))
    ensures CompanyMachines(db, c) == []
  {
    WhereNone(Table(db, MachineModel), (x: Record) => Lookup(x, "company") == Some(Val(c)));
  }

  lemma LeakStoreHasNoMachineOfCompanyOne()
    ensures CompanyMachines(LeakStore, "1") == []
  {
    LeakStoreMachines();
    assert Lookup(LeakMachine, "company") == Some(Val("2"));
    NoMachineOf(LeakStore, "1");
  }

  /** The stored user of company "1" is answered with the whole Measurement table. */
  lemma LeakStoreAnswer()
    ensures Narrow(MeasurementBase(LeakStore, LeakUser), MeasurementFilters(map[])) ==
            Objects(LeakStore, MeasurementModel)
  {
    LeakStoreHasCompanyOne();
    LeakStoreHasNoMachineOfCompanyOne();
    MachinelessCompanySeesAll(LeakStore, LeakUser);
    NoParametersNoConditions();
  }

  /** Measurement "e" belongs to company "2" and not to company "1". */
  lemma LeakStoreOwnership()
    ensures OwnsMeasurement(LeakStore, "2", LeakMeasurement)
    ensures !OwnsMeasurement(LeakStore, "1", LeakMeasurement)
  {
    assert LeakMachine in LeakStore.records && LeakMeasurement in LeakStore.records;
    assert LeakMachine in Table(LeakStore, MachineModel);
    assert LeakMeasurement in Table(LeakStore, MeasurementModel);
    assert OwnsMachine(LeakStore, "2", LeakMachine);
    assert Lookup(LeakMeasurement, "machine") == Some(Val(IdOf(LeakMachine)));
    LeakStoreHasNoMachineOfCompanyOne();
    MachinelessOwnsNothing(LeakStore, "1");
  }

  /** A company without machines owns no measurement. */
  lemma MachinelessOwnsNothing(db: Database, c: Id)
    requires CompanyMachines(db, c) == []
    ensures forall x :: !OwnsMeasurement(db, c, x)
  {
    CompanyMachinesExact(db, c);
  }

  /**
   * The user of company "1", asking for the measurements with no
   * parameters, receives the measurement of company "2".
   */
  lemma LeakExample()
    ensures Narrow(MeasurementBase(LeakStore, LeakUser), MeasurementFilters(map[])).Rows?
    ensures LeakMeasurement in Narrow(MeasurementBase(LeakStore, LeakUser), MeasurementFilters(map[])).rows
    ensures OwnsMeasurement(LeakStore, "2", LeakMeasurement)
    ensures !OwnsMeasurement(LeakStore, "1", LeakMeasurement)
  {
    LeakStoreAnswer();
    LeakStoreOwnership();
    assert LeakMeasurement in Table(LeakStore, MeasurementModel);
  }
}
