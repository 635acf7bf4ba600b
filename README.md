# Medmoriser flashcard record

This project models the flashcard record of Medmoriser, a local
question-bank application. A `QAndA` record is immutable. It has three
identity fields (question, phone, email) and two data fields (answer, a set
of tags). It defines two notions of equality:

- **weak identity** (`isSameQuestionSet`): same question and the same phone
  or the same email. This is what duplicate detection uses.
- **full equality** (`equals`): all five fields equal, tags compared as a set.

The record's second constructor omits phone and email and stores the fixed
sentinels `"00000000"` and `"toBeIgnoredNow@email.com"` instead.

Files:

- `fields.dfy`, module `Fields`: the field value types, each wrapping its raw
  string and compared by equality only, and the two sentinel constants.
- `qanda.dfy`, module `QAndAs`: the record as a datatype with a `set<Tag>`
  field, its two constructors, both equality predicates, the hash code, and
  lemmas relating them.

Java's `null` argument of `isSameQuestionSet` is an `Option<QAndA>`. The
`Object` argument of `equals` is `Obj`, which is null, a flashcard, or an
object of another class. The Java getters are the datatype's destructors.
The reference test `other == this` that opens both predicates is kept as a
value-equality test. The contracts show it agrees with the field-by-field
comparison.

## Model

| member | source | states |
|---|---|---|
| `QAndAs.Create` | src/main/java/seedu/medmoriser/model/qanda/QAndA.java:31-38 | the five-argument constructor stores each given field, and the record's tag set, copied into an empty set, is exactly the given set (so the tag getter returns it) |
| `QAndAs.CreateWithoutContact` | src/main/java/seedu/medmoriser/model/qanda/QAndA.java:43-50 | the three-argument constructor is the five-argument one with phone `"00000000"` and email `"toBeIgnoredNow@email.com"` |
| `QAndAs.QAndA.IsSameQuestionSet` | src/main/java/seedu/medmoriser/model/qanda/QAndA.java:80-88 | holds exactly when the argument is non-null, has the same question, and has the same phone or the same email; holds for the record itself; fails for null |
| `QAndAs.QAndA.Equals` | src/main/java/seedu/medmoriser/model/qanda/QAndA.java:95-110 | holds exactly when the argument is a flashcard equal to this one as a value, so it fails for null and for other classes; whenever it holds, so does the weak identity |
| `QAndAs.IsSameQuestionSetReflexive` | src/main/java/seedu/medmoriser/model/qanda/QAndA.java:81-83 | every record is the same question set as itself |
| `QAndAs.IsSameQuestionSetSymmetric` | src/main/java/seedu/medmoriser/model/qanda/QAndA.java:85-87 | the weak identity does not depend on which record is the receiver |
| `QAndAs.IsSameQuestionSetNotTransitive` | src/main/java/seedu/medmoriser/model/qanda/QAndA.java:86-87 | there are records a, b, c with a~b (shared phone) and b~c (shared email) but not a~c, so the weak identity is not an equivalence |
| `QAndAs.EqualsIffAllFields` | src/main/java/seedu/medmoriser/model/qanda/QAndA.java:104-109 | full equality holds exactly when question, phone, email, answer and tag set are all equal |
| `QAndAs.EqualsIsEquivalence` | src/main/java/seedu/medmoriser/model/qanda/QAndA.java:96-109 | full equality is reflexive, symmetric and transitive, and false for null and for any non-flashcard object |
| `QAndAs.EqualsStrongerThanIdentity` | src/main/java/seedu/medmoriser/model/qanda/QAndA.java:77-78 | full equality implies the weak identity, and the converse fails for some pair (same identity, different answer) |
| `QAndAs.QAndA.HashCode` | src/main/java/seedu/medmoriser/model/qanda/QAndA.java:112-116 | the hash code is the given combining function applied to question, phone, email, answer and tags, in that order; its partner is `EqualsImpliesSameHash` |
| `QAndAs.EqualsImpliesSameHash` | src/main/java/seedu/medmoriser/model/qanda/QAndA.java:113-116 | fully equal records have equal hash codes, for any combining function over the same five fields |
| `QAndAs.DataChangePreservesIdentity` | src/main/java/seedu/medmoriser/model/qanda/QAndA.java:18-25 | rebuilding a record with its identity fields and new answer/tags gives one that is the same question set as the original both ways, and fully equal to it exactly when answer and tags are unchanged |
| `QAndAs.DefaultsCollideOnQuestion` | src/main/java/seedu/medmoriser/model/qanda/QAndA.java:46-47 | two records built without phone and email are the same question set exactly when their questions are equal |
| `QAndAs.DefaultCollidesWith` | src/main/java/seedu/medmoriser/model/qanda/QAndA.java:85-87 | a record built without phone and email is the same question set as another record exactly when that record has the same question and the sentinel phone or the sentinel email |
| `QAndAs.EqualsIgnoresTagOrder` | src/main/java/seedu/medmoriser/model/qanda/QAndA.java:37 | records built from two enumerations that name the same tags, in any order and with any repetition, are fully equal: tag order plays no part |

## Left out

- Validation of the field types (question, phone, email, answer, tag): those
  classes are not part of this model. Each is a wrapper over its raw string,
  compared by equality. The sentinel phone and email are taken to be valid.
- The null checks of the constructors: Dafny values cannot be null.
- The defensive copy of the caller's tag set in each constructor and the
  unmodifiable view returned by the tag getter (with its exception on
  modification) are not modelled as such: a Dafny set is an immutable
  value, so the record's tags cannot be changed through either route.
- `QAndAs.QAndA.HashCode`: the exact value of the library's field-combining
  hash is not modelled. The combining function is a parameter, applied to
  the five fields in order.
- Reference identity: the `other == this` shortcut is modelled as value
  equality. This gives the same results because every field compares equal
  to itself.
- `toString`: presentation only. Its tag order comes from hash-set
  iteration, which is unspecified.
- The clear command, the test builder of the question bank, the unique
  collection, duplicate rejection and the filtered view: the store they
  act on is not part of this model.
