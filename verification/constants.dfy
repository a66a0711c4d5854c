/** The four selection axes: the `QUESTIONS` label records and the ordered
    `QUESTIONSLIST` lists built from them (src/utils/constants.ts). Each axis
    is a closed enumeration; its list is `Object.values` of its record, so it
    follows the record's declaration order. */
module Constants {
  import opened Seqs

  datatype Language = JavaScript | TypeScript | Go | Python
  datatype Framework = Express | Nest | Flask | Gin | FastAPI | Fiber
  /** `SQLite` and `DynamoDB` are commented out in the record and are not values. */
  datatype Database = PostgreSQL | MongoDB | MySQL
  datatype AuthType = JWT | Session | OAuth

  function LanguageLabel(l: Language): string {
    match l
    case JavaScript => "JavaScript"
    case TypeScript => "TypeScript"
    case Go => "Go"
    case Python => "Python"
  }

  function FrameworkLabel(f: Framework): string {
    match f
    case Express => "Express"
    case Nest => "Nest"
    case Flask => "Flask"
    case Gin => "Gin"
    case FastAPI => "FastAPI"
    case Fiber => "Fiber"
  }

  function DatabaseLabel(d: Database): string {
    match d
    case PostgreSQL => "PostgreSQL"
    case MongoDB => "MongoDB"
    case MySQL => "MySQL"
  }

  function AuthTypeLabel(a: AuthType): string {
    match a
    case JWT => "JWT"
    case Session => "Session"
    case OAuth => "OAuth"
  }

  /** Record declaration order of each axis. */
  const Languages: seq<Language> := [JavaScript, TypeScript, Go, Python]
  const Frameworks: seq<Framework> := [Express, Nest, Flask, Gin, FastAPI, Fiber]
  const Databases: seq<Database> := [PostgreSQL, MongoDB, MySQL]
  const AuthTypes: seq<AuthType> := [JWT, Session, OAuth]

  /** A label list is usable as a select-prompt choice list and as one field
      of a colon-joined key: no duplicates and no `:` in any label. */
  predicate KeySafe(labels: seq<string>) {
    Distinct(labels) && forall i :: 0 <= i < |labels| ==> ':' !in labels[i]
  }

  /** `QUESTIONSLIST.LANGUAGE`: every language exactly once, in record order. */
  function LanguageChoices(): (r: seq<string>)
    ensures r == ["JavaScript", "TypeScript", "Go", "Python"]
    ensures KeySafe(r)
    ensures forall l :: LanguageLabel(l) in r
  {
    seq(|Languages|, i requires 0 <= i < |Languages| => LanguageLabel(Languages[i]))
  }

  /** `QUESTIONSLIST.FRAMEWORK`: every framework exactly once, in record order. */
  function FrameworkChoices(): (r: seq<string>)
    ensures r == ["Express", "Nest", "Flask", "Gin", "FastAPI", "Fiber"]
    ensures KeySafe(r)
    ensures forall f :: FrameworkLabel(f) in r
  {
    seq(|Frameworks|, i requires 0 <= i < |Frameworks| => FrameworkLabel(Frameworks[i]))
  }

  /** `QUESTIONSLIST.DATABASE`: the three uncommented databases, in record order. */
  function DatabaseChoices(): (r: seq<string>)
    ensures r == ["PostgreSQL", "MongoDB", "MySQL"]
    ensures KeySafe(r)
    ensures forall d :: DatabaseLabel(d) in r
    ensures "SQLite" !in r && "DynamoDB" !in r
  {
    seq(|Databases|, i requires 0 <= i < |Databases| => DatabaseLabel(Databases[i]))
  }

  /** `QUESTIONSLIST.AUTHTYPE`: every auth type exactly once, in record order. */
  function AuthTypeChoices(): (r: seq<string>)
    ensures r == ["JWT", "Session", "OAuth"]
    ensures KeySafe(r)
    ensures forall a :: AuthTypeLabel(a) in r
  {
    seq(|AuthTypes|, i requires 0 <= i < |AuthTypes| => AuthTypeLabel(AuthTypes[i]))
  }

  /** Each axis list holds every value of its enumeration exactly once. */
  lemma {:induction false} AxisListsComplete()
    ensures Distinct(Languages) && forall l :: l in Languages
    ensures Distinct(Frameworks) && forall f :: f in Frameworks
    ensures Distinct(Databases) && forall d :: d in Databases
    ensures Distinct(AuthTypes) && forall a :: a in AuthTypes
  {
    forall l: Language
      ensures l in Languages
    {
      match l
      case JavaScript => assert Languages[0] == l;
      case TypeScript => assert Languages[1] == l;
      case Go => assert Languages[2] == l;
      case Python => assert Languages[3] == l;
    }
    forall f: Framework
      ensures f in Frameworks
    {
      match f
      case Express => assert Frameworks[0] == f;
      case Nest => assert Frameworks[1] == f;
      case Flask => assert Frameworks[2] == f;
      case Gin => assert Frameworks[3] == f;
      case FastAPI => assert Frameworks[4] == f;
      case Fiber => assert Frameworks[5] == f;
    }
    forall d: Database
      ensures d in Databases
    {
      match d
      case PostgreSQL => assert Databases[0] == d;
      case MongoDB => assert Databases[1] == d;
      case MySQL => assert Databases[2] == d;
    }
    forall a: AuthType
      ensures a in AuthTypes
    {
      match a
      case JWT => assert AuthTypes[0] == a;
      case Session => assert AuthTypes[1] == a;
      case OAuth => assert AuthTypes[2] == a;
    }
  }

  /** Different values of an axis carry different labels, so a label names
      its value unambiguously. */
  lemma {:induction false} LabelsInjective()
    ensures forall l, l' :: LanguageLabel(l) == LanguageLabel(l') ==> l == l'
    ensures forall f, f' :: FrameworkLabel(f) == FrameworkLabel(f') ==> f == f'
    ensures forall d, d' :: DatabaseLabel(d) == DatabaseLabel(d') ==> d == d'
    ensures forall a, a' :: AuthTypeLabel(a) == AuthTypeLabel(a') ==> a == a'
  {
  }

  /** No label contains the key separator `:`. */
  lemma {:induction false} LabelsColonFree()
    ensures forall l :: ':' !in LanguageLabel(l)
    ensures forall f :: ':' !in FrameworkLabel(f)
    ensures forall d :: ':' !in DatabaseLabel(d)
    ensures forall a :: ':' !in AuthTypeLabel(a)
  {
  }
}
