/** A person with a name, an age, a marital status code and, perhaps, the
    name of a partner. */
module People {
  import opened Outcomes

  /** The two status codes the setter accepts. The class documentation also
      names 2 (in love) and 3 (dating), which the setter refuses. */
  const SINGLE := 0
  const MARRIED := 1

  /** Why a setter is refused. */
  datatype PersonError = UnknownStatus | NoPartnerWhileSingle

  class Person {
    var name: string
    var age: int
    var maritalStatus: int
    var partnerName: Option<string>

    /** A new person is single and has no partner; name and age are not
        checked. */
    constructor (name: string, age: int)
      ensures this.name == name && this.age == age
      ensures maritalStatus == SINGLE && partnerName == None
    {
      this.name := name;
      this.age := age;
      maritalStatus := SINGLE;
      partnerName := None;
    }

    /** Accepts exactly the codes SINGLE and MARRIED; any other integer is
        refused with nothing changed. The partner is never touched, so
        becoming single again keeps the partner's name. */
    method SetMaritalStatus(status: int) returns (r: Outcome<PersonError>)
      modifies this
      ensures r == Pass <==> status == SINGLE || status == MARRIED
      ensures r.Fail? ==> r.error == UnknownStatus
      ensures maritalStatus == (if r == Pass then status else old(maritalStatus))
      ensures name == old(name) && age == old(age) && partnerName == old(partnerName)
    {
      if status != SINGLE && status != MARRIED {
        return Fail(UnknownStatus);
      }
      maritalStatus := status;
      r := Pass;
    }

    /** Records `partner` unless the person is single, whatever the name;
        when single, nothing changes. */
    method SetPartnerName(partner: string) returns (r: Outcome<PersonError>)
      modifies this
      ensures r == Pass <==> old(maritalStatus) != SINGLE
      ensures r.Fail? ==> r.error == NoPartnerWhileSingle
      ensures partnerName == (if r == Pass then Some(partner) else old(partnerName))
      ensures name == old(name) && age == old(age) && maritalStatus == old(maritalStatus)
    {
      if maritalStatus == SINGLE {
        return Fail(NoPartnerWhileSingle);
      }
      partnerName := Some(partner);
      r := Pass;
    }
  }

  /** The examples of the two setters' documentation: Alice, 25, marries and then
      records Bob as her partner. */
  method PartnerExample() returns (status: int, partner: Option<string>)
    ensures status == MARRIED && partner == Some("Bob")
  {
    var person := new Person("Alice", 25);
    var married := person.SetMaritalStatus(MARRIED);
    var named := person.SetPartnerName("Bob");
    status, partner := person.maritalStatus, person.partnerName;
  }

  /** Only the codes 0 and 1 are accepted: 2 and 3, though documented, are
      refused, and a refused status leaves the old one in place. */
  method DocumentedStatusesRefused() returns (inLove: Outcome<PersonError>, dating: Outcome<PersonError>, status: int)
    ensures inLove == Fail(UnknownStatus) && dating == Fail(UnknownStatus)
    ensures status == SINGLE
  {
    var person := new Person("Alice", 25);
    inLove := person.SetMaritalStatus(2);
    dating := person.SetMaritalStatus(3);
    status := person.maritalStatus;
  }

  /** A single person may hold a partner's name: setting the status back to
      SINGLE does not clear a partner recorded while married, and after that
      a new partner is refused. */
  method PartnerSurvivesDivorce() returns (status: int, partner: Option<string>, again: Outcome<PersonError>)
    ensures status == SINGLE && partner == Some("Bob")
    ensures again == Fail(NoPartnerWhileSingle)
  {
    var person := new Person("Alice", 25);
    var married := person.SetMaritalStatus(MARRIED);
    var named := person.SetPartnerName("Bob");
    var divorced := person.SetMaritalStatus(SINGLE);
    again := person.SetPartnerName("Carol");
    status, partner := person.maritalStatus, person.partnerName;
  }
}
