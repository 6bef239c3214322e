/** The behaviour the registrant's examples expect, as client methods that
    rely only on the contracts of Registrant. */
module RegistrantScenarios {
  import opened Licensing
  import opened Registrants

  /** A registrant keeps the name it was created with. */
  method CanStoreName() returns (first: string, second: string)
    ensures first == "Bruce" && second == "Penny"
  {
    var bruce := new Registrant("Bruce", 18, true);
    var penny := new Registrant("Penny", 16);
    first, second := bruce.name, penny.name;
  }

  /** A registrant keeps the age it was created with. */
  method CanStoreAge() returns (first: nat, second: nat)
    ensures first == 18 && second == 16
  {
    var bruce := new Registrant("Bruce", 18, true);
    var penny := new Registrant("Penny", 16);
    first, second := bruce.age, penny.age;
  }

  /** The permit is held when granted at creation and is absent by default. */
  method CanStorePermitStatus() returns (granted: bool, byDefault: bool)
    ensures granted && !byDefault
  {
    var bruce := new Registrant("Bruce", 18, true);
    var penny := new Registrant("Penny", 16);
    granted, byDefault := bruce.permit, penny.permit;
  }

  /** Earning a permit grants it and touches nothing else. */
  method EarnPermitChangesStatus() returns (permit: bool, name: string, age: nat, data: LicenseData)
    ensures permit && name == "Penny" && age == 16 && data == UNLICENSED
  {
    var penny := new Registrant("Penny", 16);
    var held := penny.EarnPermit();
    permit, name, age, data := penny.permit, penny.name, penny.age, penny.licenseData;
  }

  /** After earning a permit, withdrawing it clears it, and a second
      withdrawal again answers false. */
  method UnearnPermitChangesStatus() returns (afterEarn: bool, result: bool, permit: bool, data: LicenseData)
    ensures afterEarn && !result && !permit && data == UNLICENSED
  {
    var penny := new Registrant("Penny", 16);
    var held := penny.EarnPermit();
    afterEarn := penny.permit;
    held := penny.UnearnPermit();
    result := penny.UnearnPermit();
    permit, data := penny.permit, penny.licenseData;
  }
}
