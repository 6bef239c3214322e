/** The behaviour the facility's examples expect, as client methods: each one
    returns what its example inspects and promises the expected values, using
    nothing but the contracts of Facility, Vehicle and Registrant. */
module FacilityScenarios {
  import opened Vehicles
  import opened Licensing
  import opened Registrants
  import opened Facilities

  method NewTremontBranch() returns (f: Facility)
    ensures fresh(f) && f.Valid()
    ensures f.name == "DMV Tremont Branch"
    ensures f.address == "2855 Tremont Place Suite 118 Denver CO 80205"
    ensures f.phone == "(720) 865-4600"
    ensures f.services == [] && f.collectedFees == 0 && f.registeredVehicles == []
  {
    f := new Facility("DMV Tremont Branch", "2855 Tremont Place Suite 118 Denver CO 80205", "(720) 865-4600");
  }

  /** A new facility stores its contact details and offers no services. */
  method CanInitialize() returns (name: string, address: string, phone: string, services: seq<string>)
    ensures name == "DMV Tremont Branch"
    ensures address == "2855 Tremont Place Suite 118 Denver CO 80205"
    ensures phone == "(720) 865-4600"
    ensures services == []
  {
    var f := NewTremontBranch();
    name, address, phone, services := f.name, f.address, f.phone, f.services;
  }

  /** Services are listed in the order they were added. */
  method CanAddAvailableServices() returns (before: seq<string>, after: seq<string>)
    ensures before == []
    ensures after == ["New Drivers License", "Renew Drivers License", "Vehicle Registration"]
  {
    var f := NewTremontBranch();
    before := f.services;
    f.AddService("New Drivers License");
    f.AddService("Renew Drivers License");
    f.AddService("Vehicle Registration");
    after := f.services;
  }

  /** The renewal gate is the literal name "Renew License": a facility that
      lists "Renew Drivers License" together with both tests licenses a
      registrant and still refuses to renew. */
  method RenewDriversLicenseIsNotRenewal() returns (license: bool, renewed: bool)
    ensures license && !renewed
  {
    var f := NewTremontBranch();
    var bruce := new Registrant("Bruce", 18, true);
    f.AddService("Renew Drivers License");
    f.AddService(WRITTEN_TEST);
    f.AddService(ROAD_TEST);
    var ok := f.AdministerWrittenTest(bruce);
    ok := f.AdministerRoadTest(bruce);
    license := bruce.licenseData.license;
    renewed := f.RenewDriversLicense(bruce);
  }

  /** Registration is refused until offered; then the Cruz, the Camaro and the
      Bolt are registered today with regular, antique and ev plates, the fees
      run 100, 125, 325 and the register holds 1, 2, 3 vehicles. */
  method RegistersVehiclesIfCapable(today: Date)
    returns (refused: bool, fees: seq<int>, counts: seq<int>,
             plates: seq<Option<PlateType>>, dates: seq<Option<Date>>)
    requires 1969 + ANTIQUE_AGE < today.year <= 2012 + ANTIQUE_AGE
    ensures refused
    ensures fees == [100, 125, 325]
    ensures counts == [1, 2, 3]
    ensures plates == [Some(Regular), Some(Antique), Some(PlateType.Ev)]
    ensures dates == [Some(today), Some(today), Some(today)]
  {
    var f := NewTremontBranch();
    var cruz := new Vehicle("123456789abcdefgh", 2012, "Chevrolet", "Cruz", Ice);
    var bolt := new Vehicle("987654321abcdefgh", 2019, "Chevrolet", "Bolt", Engine.Ev);
    var camaro := new Vehicle("1a2b3c4d5e6f", 1969, "Chevrolet", "Camaro", Ice);
    var ok := f.RegisterVehicle(bolt, today);
    refused := !ok && f.collectedFees == 0 && f.registeredVehicles == [] && !bolt.IsRegistered();
    f.AddService(VEHICLE_REGISTRATION);
    ok := f.RegisterVehicle(cruz, today);
    fees, counts := [f.collectedFees], [|f.registeredVehicles|];
    plates, dates := [cruz.plateType], [cruz.registrationDate];
    ok := f.RegisterVehicle(camaro, today);
    fees, counts := fees + [f.collectedFees], counts + [|f.registeredVehicles|];
    plates, dates := plates + [camaro.plateType], dates + [camaro.registrationDate];
    ok := f.RegisterVehicle(bolt, today);
    fees, counts := fees + [f.collectedFees], counts + [|f.registeredVehicles|];
    plates, dates := plates + [bolt.plateType], dates + [bolt.registrationDate];
  }

  /** The collected fees are the running total of the fees, in call order. */
  method TracksCollectedFees(today: Date) returns (fees: seq<int>)
    requires 1969 + ANTIQUE_AGE < today.year <= 2012 + ANTIQUE_AGE
    ensures fees == [100, 125, 325]
  {
    var f := NewTremontBranch();
    var cruz := new Vehicle("123456789abcdefgh", 2012, "Chevrolet", "Cruz", Ice);
    var bolt := new Vehicle("987654321abcdefgh", 2019, "Chevrolet", "Bolt", Engine.Ev);
    var camaro := new Vehicle("1a2b3c4d5e6f", 1969, "Chevrolet", "Camaro", Ice);
    f.AddService(VEHICLE_REGISTRATION);
    var ok := f.RegisterVehicle(cruz, today);
    fees := [f.collectedFees];
    ok := f.RegisterVehicle(camaro, today);
    fees := fees + [f.collectedFees];
    ok := f.RegisterVehicle(bolt, today);
    fees := fees + [f.collectedFees];
  }

  /** Each registration appends its vehicle to the register. */
  method StoresRegisteredVehicles(today: Date) returns (count: int, inCallOrder: bool)
    ensures count == 3 && inCallOrder
  {
    var f := NewTremontBranch();
    var cruz := new Vehicle("123456789abcdefgh", 2012, "Chevrolet", "Cruz", Ice);
    var bolt := new Vehicle("987654321abcdefgh", 2019, "Chevrolet", "Bolt", Engine.Ev);
    var camaro := new Vehicle("1a2b3c4d5e6f", 1969, "Chevrolet", "Camaro", Ice);
    f.AddService(VEHICLE_REGISTRATION);
    var ok := f.RegisterVehicle(cruz, today);
    ok := f.RegisterVehicle(camaro, today);
    ok := f.RegisterVehicle(bolt, today);
    count := |f.registeredVehicles|;
    inCallOrder := f.registeredVehicles == [cruz, camaro, bolt];
  }

  /** Plates follow the engine and the vehicle's age. */
  method AssignsPlateTypeToVehicles(today: Date) returns (plates: seq<Option<PlateType>>)
    requires 1969 + ANTIQUE_AGE < today.year <= 2012 + ANTIQUE_AGE
    ensures plates == [Some(Regular), Some(Antique), Some(PlateType.Ev)]
  {
    var f := NewTremontBranch();
    var cruz := new Vehicle("123456789abcdefgh", 2012, "Chevrolet", "Cruz", Ice);
    var bolt := new Vehicle("987654321abcdefgh", 2019, "Chevrolet", "Bolt", Engine.Ev);
    var camaro := new Vehicle("1a2b3c4d5e6f", 1969, "Chevrolet", "Camaro", Ice);
    f.AddService(VEHICLE_REGISTRATION);
    var ok := f.RegisterVehicle(cruz, today);
    ok := f.RegisterVehicle(camaro, today);
    ok := f.RegisterVehicle(bolt, today);
    plates := [cruz.plateType, camaro.plateType, bolt.plateType];
  }

  /** A registrant created with a permit has it and holds no license data. */
  method AccessesRegistrantLicenseData() returns (data: LicenseData, permit: bool)
    ensures data == LicenseData(false, false, false) && permit
  {
    var bruce := new Registrant("Bruce", 18, true);
    data, permit := bruce.licenseData, bruce.permit;
  }

  /** The written test is refused where it is not offered. */
  method DoesNotAdministerWithoutOffering() returns (result: bool)
    ensures !result
  {
    var f := NewTremontBranch();
    var bruce := new Registrant("Bruce", 18, true);
    result := f.AdministerWrittenTest(bruce);
  }

  /** Once offered, the written test is passed by an 18-year-old with a permit. */
  method ChangesWrittenAfterAdministering() returns (written: bool)
    ensures written
  {
    var f := NewTremontBranch();
    var bruce := new Registrant("Bruce", 18, true);
    f.AddService(WRITTEN_TEST);
    var ok := f.AdministerWrittenTest(bruce);
    written := bruce.licenseData.written;
  }

  /** A 15-year-old fails the written test, with or without a permit. */
  method DoesNotAdministerToUnderSixteen() returns (withoutPermit: bool, withPermit: bool)
    ensures !withoutPermit && !withPermit
  {
    var f := NewTremontBranch();
    var tucker := new Registrant("Tucker", 15);
    f.AddService(WRITTEN_TEST);
    var ok := f.AdministerWrittenTest(tucker);
    withoutPermit := tucker.licenseData.written;
    var held := tucker.EarnPermit();
    ok := f.AdministerWrittenTest(tucker);
    withPermit := tucker.licenseData.written;
  }

  /** A 16-year-old fails the written test without a permit and passes it
      after earning one. */
  method RequirePermitToAdminister() returns (withoutPermit: bool, withPermit: bool)
    ensures !withoutPermit && withPermit
  {
    var f := NewTremontBranch();
    var penny := new Registrant("Penny", 16);
    f.AddService(WRITTEN_TEST);
    var ok := f.AdministerWrittenTest(penny);
    withoutPermit := penny.licenseData.written;
    var held := penny.EarnPermit();
    ok := f.AdministerWrittenTest(penny);
    withPermit := penny.licenseData.written;
  }

  /** The road test is refused when not offered, and then without a passed
      written test even with a permit; after the written test it licenses. */
  method RoadTestOnlyIfOfferedAndWrittenPassed()
    returns (notOffered: bool, noPermit: bool, noWritten: bool, license: bool)
    ensures !notOffered && !noPermit && !noWritten && license
  {
    var f := NewTremontBranch();
    var tucker := new Registrant("Tucker", 15);
    var bruce := new Registrant("Bruce", 18, true);
    notOffered := f.AdministerRoadTest(tucker);
    f.AddService(ROAD_TEST);
    noPermit := f.AdministerRoadTest(tucker);
    var held := tucker.EarnPermit();
    noWritten := f.AdministerRoadTest(tucker);
    f.AddService(WRITTEN_TEST);
    var ok := f.AdministerWrittenTest(bruce);
    ok := f.AdministerRoadTest(bruce);
    license := bruce.licenseData.license;
  }

  /** Renewal is refused when not offered, then before the written test, then
      before the road test; once licensed it is renewed. */
  method RenewOnlyIfOfferedAndLicensed()
    returns (notOffered: bool, noWritten: bool, noLicense: bool, renewed: bool)
    ensures !notOffered && !noWritten && !noLicense && renewed
  {
    var f := NewTremontBranch();
    var bruce := new Registrant("Bruce", 18, true);
    notOffered := f.RenewDriversLicense(bruce);
    f.AddService(RENEW_LICENSE);
    f.AddService(WRITTEN_TEST);
    f.AddService(ROAD_TEST);
    noWritten := f.RenewDriversLicense(bruce);
    var ok := f.AdministerWrittenTest(bruce);
    noLicense := f.RenewDriversLicense(bruce);
    ok := f.AdministerRoadTest(bruce);
    ok := f.RenewDriversLicense(bruce);
    renewed := bruce.licenseData.renewed;
  }
}
