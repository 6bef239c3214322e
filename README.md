# Motor-vehicle agency rules, modelled in Dafny

This project models a small motor-vehicle agency ("the DMV"). The agency has three kinds of object:

- A **Facility** is a branch. It keeps a list of offered services, a counter of collected fees and a register of the vehicles it has registered.
- A **Vehicle** receives a plate type and a registration date when a facility registers it.
- A **Registrant** holds a permit and three license flags: `written`, `license` and `renewed`. A facility advances the flags.

The repository's behaviour is known here only through its two RSpec example files. `spec/facility_spec.rb` covers the facility. `spec/registrant_spec.rb` covers the registrant. The implementation under `lib/` is not part of this model. The model is the rule system that those examples fix.

Each operation of a facility is gated by one literal service name:

| operation | service name |
|---|---|
| register a vehicle | `"Vehicle Registration"` |
| written test | `"Written Test"` |
| road test | `"Road Test"` |
| license renewal | `"Renew License"` |

The name `"Renew Drivers License"`, which the add-service example adds, gates nothing. When the service is not listed, the operation returns `false` and changes nothing.

A successful registration does four things:

- It gives the vehicle its plate. An electric engine gives `ev`, whatever the vehicle's age. Otherwise a vehicle more than 25 years old gives `antique`, and any other vehicle gives `regular`.
- It sets the registration date to today.
- It adds the plate's fee (100 regular, 25 antique, 200 ev) to the collected fees.
- It appends the vehicle to the register.

A registrant's flags advance in order:

- The written test needs a permit and an age of at least 16.
- The road test needs a permit and a passed written test.
- Renewal needs a license.

Modules, one per component:

- `Vehicles` (vehicles.dfy) holds the engine and plate enumerations, the plate rule `PlateFor`, the fee table `Fee` and the `Vehicle` class.
- `Licensing` (licensing.dfy) models a registrant's licensing status as a value. It defines the calls that affect it (`Event`), the effect of one call (`Step`) and the effect of a sequence of calls in call order (`Run`). It also holds the lemmas about every such sequence.
- `Registrants` (registrants.dfy) holds the `Registrant` class. Its permit methods are proved against `Licensing.Step`.
- `Facilities` (facilities.dfy) holds the `Facility` class and the fee total `Sum`.
  - A ghost `feeLog` records each charged fee in call order.
  - The invariant `Valid()` keeps `collectedFees == Sum(feeLog)` and keeps one fee per registered vehicle.
  - Each licensing method is proved against `Licensing.Step`, with `offered` set to whether its service is listed.
- `FacilityScenarios` and `RegistrantScenarios` hold one client method per example (`it` block).
  - Each method builds its objects and makes the example's calls.
  - It returns the values the example inspects, and its `ensures` gives the values the example expects.
  - These methods are verified from the classes' contracts alone.

Modelling decisions:

- "Today" is a `Date` parameter of `RegisterVehicle`. The current year used by the plate rule is `today.year`, so the year and the date cannot disagree.
- The antique cutoff, more than `ANTIQUE_AGE = 25` years, is an assumption. The examples only fix a 1969 ice vehicle as antique and a 2012 ice vehicle as regular. Under this assumption those examples hold only when the current year is between 1995 and 2037. The scenario methods that depend on it require exactly that range.
- The road test also needs a permit. The gate is therefore "offered, permit held, written test passed". The examples are consistent with this gate and also with the gate without the permit.
- Ruby's `nil` and `false` failure results are both `false`. On success the three licensing operations and `RegisterVehicle` return `true`. `earn_permit` and `unearn_permit` return the new permit value, which is what a Ruby attribute assignment evaluates to. The examples rely on this for `unearn_permit`.

## Model

| member | source | states |
|---|---|---|
| `Vehicles.PlateFor` | spec/facility_spec.rb:76-84 | the plate is ev exactly when the engine is electric, whatever the year; it is antique exactly when an ice vehicle is more than 25 years old in the current year; it is regular exactly when an ice vehicle is at most 25 years old |
| `Vehicles.RegistrationFee` | spec/facility_spec.rb:39-50 | the fee table `Fee` composed with the plate rule charges 200 for an electric engine whatever the year, 25 for an ice vehicle more than 25 years old and 100 for any other ice vehicle; `RegisterVehicle` adds exactly that fee to the collected fees |
| `Vehicles.Vehicle.constructor` | spec/facility_spec.rb:7-9 | a new vehicle keeps the vin, year, make, model and engine it was given and has neither plate type nor registration date |
| `Licensing.Step` | spec/facility_spec.rb:94-149 | one call never changes the age; a refused call changes nothing; permit calls set only the permit; a successful test sets exactly its own flag; no call clears a license flag; a consistent status stays consistent; a flag goes up only through its own call, succeeding |
| `Licensing.Succeeds` | spec/facility_spec.rb:94-149 | a facility call whose service is not offered never succeeds; a successful written test needs a permit and age at least 16, a successful road test needs a permit and a passed written test, a successful renewal needs a license |
| `Licensing.RunKeepsConsistent` | spec/facility_spec.rb:104-149 | after any sequence of calls from a consistent status, a license still implies a passed written test, a renewal implies a license, and a passed written test implies age at least 16 |
| `Licensing.RunNeverClearsFlags` | spec/facility_spec.rb:138-149 | after any sequence of calls the age is the same and every license flag that was set is still set |
| `Licensing.RaisedByEnabler` | spec/facility_spec.rb:113-134 | a flag that was down at the start and is up after a sequence of calls was raised by its own call (earning the permit, an offered written test, an offered road test, an offered renewal), and that call succeeded in the status it met |
| `Licensing.RenewalFollowsEveryStep` | spec/facility_spec.rb:138-149 | a registrant who starts with no license data, with or without a permit, has a renewal only if the calls include, in this order, an offered written test, an offered road test and an offered renewal |
| `Licensing.RenewalNeedsEarnedPermit` | spec/facility_spec.rb:104-120 | a registrant who starts with no permit and no license data has a renewal only if the calls include, in this order, earning the permit, an offered written test, an offered road test and an offered renewal |
| `Licensing.StepIdempotent` | spec/registrant_spec.rb:38-43 | repeating any call has no further effect, so a second `unearn_permit` leaves the permit withdrawn |
| `Registrants.Registrant.constructor` | spec/registrant_spec.rb:17-28 | a new registrant keeps its name and age, holds a permit only when given one (the default is none), has all three license flags false and is consistent |
| `Registrants.Registrant.EarnPermit` | spec/registrant_spec.rb:30-35 | the permit is held afterwards and the call answers true; the license data is unchanged; the status is `Step` of `PermitEarned` |
| `Registrants.Registrant.UnearnPermit` | spec/registrant_spec.rb:37-44 | the permit is withdrawn afterwards and the call answers false; the license data is unchanged; the status is `Step` of `PermitUnearned` |
| `Facilities.SumAppend` | spec/facility_spec.rb:57-65 | appending a fee to the fee log adds exactly that fee to the total, which makes the collected fees the running sum in call order |
| `Facilities.Facility.constructor` | spec/facility_spec.rb:15-23 | a new facility keeps its name, address and phone, offers no services, has collected nothing and has registered nothing |
| `Facilities.Facility.AddService` | spec/facility_spec.rb:25-33 | the service is appended after those already listed, so afterwards exactly the services offered before and the new name are offered; fees and the register are unchanged |
| `Facilities.Facility.RegisterVehicle` | spec/facility_spec.rb:35-55 | it succeeds exactly when vehicle registration is offered. On success the vehicle gets the rule's plate and today's date, the plate's fee is added to the collected fees and to the fee log, and the vehicle is appended to the register. On failure the vehicle, the fees and the register are unchanged. The fee invariant is kept |
| `Facilities.Facility.AdministerWrittenTest` | spec/facility_spec.rb:94-120 | it succeeds exactly when the written test is offered and the registrant holds a permit and is at least 16; the registrant's new status is `Step` of that call, so on success only `written` is set and on failure nothing changes |
| `Facilities.Facility.AdministerRoadTest` | spec/facility_spec.rb:123-134 | it succeeds exactly when the road test is offered and the registrant holds a permit and has passed the written test; the new status is `Step` of that call, so on success only `license` is set |
| `Facilities.Facility.RenewDriversLicense` | spec/facility_spec.rb:137-149 | it succeeds exactly when "Renew License" is offered and the registrant holds a license; the new status is `Step` of that call, so on success only `renewed` is set |
| `FacilityScenarios.NewTremontBranch` | spec/facility_spec.rb:5 | the fixture facility is fresh, valid, has the Tremont branch's contact details and is empty |
| `FacilityScenarios.CanInitialize` | spec/facility_spec.rb:15-23 | a new facility reports its name, address, phone and an empty service list |
| `FacilityScenarios.CanAddAvailableServices` | spec/facility_spec.rb:25-33 | the service list goes from empty to the three added names in the order they were added |
| `FacilityScenarios.RenewDriversLicenseIsNotRenewal` | spec/facility_spec.rb:138-143 | a facility listing "Renew Drivers License", "Written Test" and "Road Test" licenses an 18-year-old with a permit and still refuses renewal, because only the literal name "Renew License" gates it |
| `FacilityScenarios.RegistersVehiclesIfCapable` | spec/facility_spec.rb:36-55 | registration is refused before it is offered. Afterwards the fees run 100, 125, 325 and the register holds 1, 2, 3 vehicles. The plates are regular, antique and ev, and every registration date is today |
| `FacilityScenarios.TracksCollectedFees` | spec/facility_spec.rb:57-65 | the collected fees after the three registrations are 100, 125 and 325 |
| `FacilityScenarios.StoresRegisteredVehicles` | spec/facility_spec.rb:67-74 | the register holds three vehicles, namely the three registered vehicles in call order |
| `FacilityScenarios.AssignsPlateTypeToVehicles` | spec/facility_spec.rb:76-84 | the Cruz, Camaro and Bolt get regular, antique and ev plates |
| `FacilityScenarios.AccessesRegistrantLicenseData` | spec/facility_spec.rb:89-92 | a registrant created with a permit holds it, and its three license flags are all false |
| `FacilityScenarios.DoesNotAdministerWithoutOffering` | spec/facility_spec.rb:94-96 | the written test answers false where it is not offered |
| `FacilityScenarios.ChangesWrittenAfterAdministering` | spec/facility_spec.rb:98-102 | with the written test offered, an 18-year-old with a permit has `written` set |
| `FacilityScenarios.DoesNotAdministerToUnderSixteen` | spec/facility_spec.rb:104-111 | a 15-year-old has `written` false before and after earning a permit |
| `FacilityScenarios.RequirePermitToAdminister` | spec/facility_spec.rb:113-120 | a 16-year-old has `written` false without a permit and true after earning one |
| `FacilityScenarios.RoadTestOnlyIfOfferedAndWrittenPassed` | spec/facility_spec.rb:124-134 | the road test answers false when not offered, then false without a permit, then false with a permit but no written test; after a written test it sets `license` |
| `FacilityScenarios.RenewOnlyIfOfferedAndLicensed` | spec/facility_spec.rb:138-149 | renewal answers false when not offered, then false before the written test, then false before the road test; once licensed it sets `renewed` |
| `RegistrantScenarios.CanStoreName` | spec/registrant_spec.rb:17-20 | the registrants report the names Bruce and Penny |
| `RegistrantScenarios.CanStoreAge` | spec/registrant_spec.rb:21-24 | the registrants report the ages 18 and 16 |
| `RegistrantScenarios.CanStorePermitStatus` | spec/registrant_spec.rb:25-28 | the permit is held when granted at creation and absent by default |
| `RegistrantScenarios.EarnPermitChangesStatus` | spec/registrant_spec.rb:31-34 | after `earn_permit` the permit is held, and the name, the age and the three license flags are unchanged |
| `RegistrantScenarios.UnearnPermitChangesStatus` | spec/registrant_spec.rb:38-43 | after earning and then withdrawing the permit, it is not held, a second withdrawal answers false, and the license flags are unchanged |

## Left out

- The implementation files `lib/facility.rb`, `lib/vehicle.rb` and `lib/registrant.rb` are not part of this model. Their behaviour is inferred from what the examples expect.
- The exact antique cutoff is not visible anywhere. `ANTIQUE_AGE = 25` with a strict "more than" is an assumption that agrees with both examples.
- The system clock is left out. `Date.today` and the current year are the `today` parameter of `RegisterVehicle`.
- Facility name, address and phone are stored, and no operation reads them. The second fixture facility (`@facility_2`) is never used.
- The vehicle's vin, make and model are only stored.
- The RSpec harness is left out:
  - `before(:each)` becomes the object creation at the top of each scenario method.
  - `instance_variable_get` becomes reading the `registeredVehicles` and `licenseData` fields.
  - `be_an_instance_of` and `all be_a(Vehicle)` hold by static typing.
- The license data hash becomes the three-field datatype `LicenseData`. It has three entries by construction.
- `permit?` is a read of the `permit` field.
- A second successful `RegisterVehicle` of the same vehicle overwrites its plate and date, charges a second fee and appends the vehicle to the register again. No example registers a vehicle successfully twice.
- `Registrant` ages are natural numbers. Ruby integers are unbounded, so no integer width is modelled.

