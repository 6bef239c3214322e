/** Registrants: a person applying for a driver's license, with a permit
    that they earn or lose themselves and license data that only a facility
    advances. */
module Registrants {
  import opened Licensing

  class Registrant {
    const name: string
    const age: nat
    var permit: bool
    var licenseData: LicenseData

    /** The licensing status this registrant presents to a facility. */
    function State(): Status
      reads this
    {
      Status(age, permit, licenseData)
    }

    /** The licensing steps this registrant holds were taken in order. */
    ghost predicate Valid()
      reads this
    {
      Consistent(State())
    }

    /** A new registrant holds a permit only when given one, and no license data. */
    constructor (name: string, age: nat, permit: bool := false)
      ensures Valid()
      ensures this.name == name && this.age == age && this.permit == permit
      ensures licenseData == UNLICENSED
    {
      this.name := name;
      this.age := age;
      this.permit := permit;
      licenseData := UNLICENSED;
    }

    /** Grants the permit; the result is the new permit value. */
    method EarnPermit() returns (held: bool)
      requires Valid()
      modifies this
      ensures Valid()
      ensures State() == Step(old(State()), PermitEarned)
      ensures permit && held
      ensures licenseData == old(licenseData)
    {
      permit := true;
      held := permit;
    }

    /** Withdraws the permit; the result is the new permit value. */
    method UnearnPermit() returns (held: bool)
      requires Valid()
      modifies this
      ensures Valid()
      ensures State() == Step(old(State()), PermitUnearned)
      ensures !permit && !held
      ensures licenseData == old(licenseData)
    {
      permit := false;
      held := permit;
    }
  }
}
