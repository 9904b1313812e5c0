/** The client entity (Cliente): a validating constructor and four setters. */
module Clients {
  import opened Outcomes
  import opened Validation

  /** Character.isWhitespace: Unicode separators other than no-break spaces, and the ASCII controls it lists. */
  predicate IsJavaWhitespace(c: char) {
    var n := c as int;
    || 9 <= n <= 13 || 28 <= n <= 32
    || n == 0x1680 || (0x2000 <= n <= 0x200A && n != 0x2007)
    || n == 0x2028 || n == 0x2029 || n == 0x205F || n == 0x3000
  }

  /**
   * String.isBlank: empty or white space only. A blank string holds no
   * character the phone or e-mail patterns accept, and a blank ASCII string
   * trims to nothing.
   */
  predicate IsBlank(s: string)
    ensures s == [] ==> IsBlank(s)
    ensures IsBlank(s) ==> forall k :: 0 <= k < |s| ==> !IsEmailChar(s[k])
    ensures IsBlank(s) && (forall k :: 0 <= k < |s| ==> s[k] as int < 128) ==> Trim(s) == []
  {
    forall k :: 0 <= k < |s| ==> IsJavaWhitespace(s[k])
  }

  /** The characters String.trim strips: those at or below U+0020. */
  predicate IsTrimmed(c: char) { c <= ' ' }

  /** Where String.trim's result starts: just past the leading run of stripped characters. */
  function TrimStart(s: string, from: nat := 0): (k: nat)
    requires from <= |s|
    ensures from <= k <= |s|
    ensures k < |s| ==> !IsTrimmed(s[k])
    ensures forall i :: from <= i < k ==> IsTrimmed(s[i])
    decreases |s| - from
  {
    if from == |s| || !IsTrimmed(s[from]) then from else TrimStart(s, from + 1)
  }

  /** Where String.trim's result ends: just before the trailing run, never before `lo`. */
  function TrimEnd(s: string, lo: nat, hi: nat): (k: nat)
    requires lo <= hi <= |s|
    ensures lo <= k <= hi
    ensures k > lo ==> !IsTrimmed(s[k - 1])
    ensures forall i :: k <= i < hi ==> IsTrimmed(s[i])
    decreases hi
  {
    if hi == lo || !IsTrimmed(s[hi - 1]) then hi else TrimEnd(s, lo, hi - 1)
  }

  /**
   * String.trim. The result is the slice of `s` between a leading and a
   * trailing run of characters at or below U+0020, and it neither starts nor
   * ends with one.
   */
  function Trim(s: string): (r: string)
    ensures |r| <= |s|
    ensures r != [] ==> !IsTrimmed(r[0]) && !IsTrimmed(r[|r| - 1])
    ensures r == [] ==> forall i :: 0 <= i < |s| ==> IsTrimmed(s[i])
    ensures exists lo, hi :: && 0 <= lo <= hi <= |s| && r == s[lo..hi]
                             && (forall i :: 0 <= i < lo ==> IsTrimmed(s[i]))
                             && (forall i :: hi <= i < |s| ==> IsTrimmed(s[i]))
  {
    var lo := TrimStart(s);
    var hi := TrimEnd(s, lo, |s|);
    s[lo..hi]
  }

  /** The data a client is created with, after the constructor's checks. */
  datatype Profile = Profile(fullName: string, identification: string, phone: string, email: string)

  /**
   * The constructor's checks, in the source's order: name, identification,
   * phone, e-mail. On success the name and identification are trimmed and the
   * phone and e-mail kept verbatim.
   */
  function CheckClient(fullName: string, identification: string, phone: string, email: string): (r: Result<Profile>)
    ensures IsBlank(fullName) ==> r == Err(BlankName)
    ensures !IsBlank(fullName) && IsBlank(identification) ==> r == Err(BlankIdentification)
    ensures !IsBlank(fullName) && !IsBlank(identification) && !ValidPhone(phone) ==> r == Err(PhoneFormatInvalid)
    ensures !IsBlank(fullName) && !IsBlank(identification) && ValidPhone(phone) && !ValidEmail(email)
            ==> r == Err(EmailFormatInvalid)
    ensures r.Ok? <==> !IsBlank(fullName) && !IsBlank(identification) && ValidPhone(phone) && ValidEmail(email)
    ensures r.Ok? ==> r.value == Profile(Trim(fullName), Trim(identification), phone, email)
  {
    if IsBlank(fullName) then Err(BlankName)
    else if IsBlank(identification) then Err(BlankIdentification)
    else if !ValidPhone(phone) then Err(PhoneFormatInvalid)
    else if !ValidEmail(email) then Err(EmailFormatInvalid)
    else Ok(Profile(Trim(fullName), Trim(identification), phone, email))
  }

  lemma SampleEmailValid()
    ensures ValidEmail("ana@mail.cr")
  {
    var email := "ana@mail.cr";
    assert email[..3] == "ana";
    var d := email[4..];
    assert d == "mail.cr";
    assert d[..4] == "mail" && d[5..] == "cr";
    assert DomainSplit(d, 4);
    MatchIsValidEmail(email, 3, 4);
  }

  lemma SampleIdentificationKept()
    ensures !IsBlank("1-234") && Trim("1-234") == "1-234"
  {
    var id := "1-234";
    assert !IsJavaWhitespace(id[0]);
    assert TrimStart(id) == 0;
    assert TrimEnd(id, 0, 5) == 5;
  }

  /**
   * isBlank and trim disagree on which characters are blank. A name made of
   * one character at or below U+0020 that Java does not count as white space
   * (exactly U+0000 to U+0008 and U+000E to U+001B) passes the blank check
   * and is then trimmed to the empty name.
   */
  lemma ControlCharacterNameStoredEmpty(c: char, id: string, phone: string, email: string)
    requires c <= ' ' && !IsJavaWhitespace(c)
    requires !IsBlank(id) && ValidPhone(phone) && ValidEmail(email)
    ensures c as int <= 8 || 14 <= c as int <= 27
    ensures !IsBlank([c]) && Trim([c]) == []
    ensures CheckClient([c], id, phone, email) == Ok(Profile([], Trim(id), phone, email))
  {
    var name := [c];
    assert !IsJavaWhitespace(name[0]);
    assert TrimStart(name) == 1;
  }

  /** An instance: the name U+0001 is stored as the empty name. */
  lemma ControlCharacterNameExample()
    ensures CheckClient("\U{1}", "1-234", "88887777", "ana@mail.cr")
            == Ok(Profile("", "1-234", "88887777", "ana@mail.cr"))
  {
    SampleEmailValid();
    SampleIdentificationKept();
    SamplePhoneValid();
    assert !IsJavaWhitespace('\U{1}');
    ControlCharacterNameStoredEmpty('\U{1}', "1-234", "88887777", "ana@mail.cr");
    assert "\U{1}" == ['\U{1}'];
  }

  lemma SamplePhoneValid()
    ensures ValidPhone("88887777")
  {
  }

  class Client {
    var fullName: string
    var identification: string
    var phone: string
    var email: string

    /** The source constructor's assignments, once CheckClient has accepted the arguments. */
    constructor (p: Profile)
      ensures Fields() == p
    {
      fullName := p.fullName;
      identification := p.identification;
      phone := p.phone;
      email := p.email;
    }

    function Fields(): Profile
      reads this
    {
      Profile(fullName, identification, phone, email)
    }

    /**
     * new Cliente(nombre, identificacion, telefono, email): refuses the
     * arguments CheckClient refuses, otherwise builds a client holding the
     * checked and trimmed profile.
     */
    static method Create(fullName: string, identification: string, phone: string, email: string)
      returns (r: Result<Client>)
      ensures r.Err? <==> CheckClient(fullName, identification, phone, email).Err?
      ensures r.Err? ==> r.error == CheckClient(fullName, identification, phone, email).error
      ensures r.Ok? ==> fresh(r.value) && r.value.Fields() == CheckClient(fullName, identification, phone, email).value
    {
      var checked := CheckClient(fullName, identification, phone, email);
      match checked {
        case Err(e) =>
          r := Err(e);
        case Ok(p) =>
          var c := new Client(p);
          r := Ok(c);
      }
    }

    /** setNombreCompleto: assigns without any check. */
    method SetFullName(name: string)
      modifies this
      ensures Fields() == old(Fields()).(fullName := name)
    {
      fullName := name;
    }

    /** setIdentificacion: assigns without any check. */
    method SetIdentification(id: string)
      modifies this
      ensures Fields() == old(Fields()).(identification := id)
    {
      identification := id;
    }

    /** setTelefono: rejects a malformed phone and then changes nothing. */
    method SetPhone(newPhone: string) returns (r: Result<()>)
      modifies this
      ensures r.Ok? <==> ValidPhone(newPhone)
      ensures r.Err? ==> r.error == PhoneFormatInvalid && Fields() == old(Fields())
      ensures r.Ok? ==> Fields() == old(Fields()).(phone := newPhone)
    {
      if !ValidPhone(newPhone) {
        return Err(PhoneFormatInvalid);
      }
      phone := newPhone;
      r := Ok(());
    }

    /** setEmail: rejects a malformed address and then changes nothing. */
    method SetEmail(newEmail: string) returns (r: Result<()>)
      modifies this
      ensures r.Ok? <==> ValidEmail(newEmail)
      ensures r.Err? ==> r.error == EmailFormatInvalid && Fields() == old(Fields())
      ensures r.Ok? ==> Fields() == old(Fields()).(email := newEmail)
    {
      if !ValidEmail(newEmail) {
        return Err(EmailFormatInvalid);
      }
      email := newEmail;
      r := Ok(());
    }
  }
}
