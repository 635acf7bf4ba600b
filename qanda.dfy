/**
 * An immutable question/answer flashcard record and its two notions of
 * equality: the weak identity used to detect duplicates
 * (IsSameQuestionSet) and full structural equality (Equals).
 */
module QAndAs {
  import opened Fields

  /** A reference that may be null. */
  datatype Option<+T> = None | Some(value: T)

  /**
   * A reference of static type Object, as received by Equals: null, a
   * flashcard, or an object of some other class.
   */
  datatype Obj = Null | QAndAObj(card: QAndA) | NonQAndA

  /** A 32-bit signed integer, the type of a hash code. */
  newtype int32 = x: int | -0x8000_0000 <= x < 0x8000_0000

  /**
   * A flashcard. question, phone and email are its identity fields; answer
   * and tags are its data fields. The destructors are the getters; a
   * value cannot be changed, so handing out the tag set is always safe.
   */
  datatype QAndA = QAndA(question: Question, phone: Phone, email: Email, answer: Answer, tags: set<Tag>)
  {
    /**
     * Weak identity: the same question and at least one more identity field
     * (phone or email) in common. Null is never the same question set.
     */
    function IsSameQuestionSet(other: Option<QAndA>): (b: bool)
      ensures other == Some(this) ==> b
      ensures other.None? ==> !b
      ensures b <==> other.Some? && other.value.question == question
                     && (other.value.phone == phone || other.value.email == email)
    {
      if other == Some(this) then true
      else
        other.Some?
        && other.value.question == question
        && (other.value.phone == phone || other.value.email == email)
    }

    /**
     * Full equality: the other reference is a flashcard whose five fields,
     * tags compared as a set, equal this one's.
     */
    function Equals(other: Obj): (b: bool)
      ensures b <==> other == QAndAObj(this)
      ensures b ==> IsSameQuestionSet(Some(other.card))
    {
      if other == QAndAObj(this) then true
      else if !other.QAndAObj? then false
      else
        var o := other.card;
        && o.question == question
        && o.phone == phone
        && o.email == email
        && o.answer == answer
        && o.tags == tags
    }

    /**
     * The hash code: whatever the library's combining function gives for
     * the five fields, in the order question, phone, email, answer, tags.
     */
    function HashCode(objectsHash: (Question, Phone, Email, Answer, set<Tag>) -> int32): int32
    {
      objectsHash(question, phone, email, answer, tags)
    }
  }

  /**
   * The constructor taking all five fields. The record's tag set starts
   * empty and receives a copy of every given tag.
   */
  function Create(question: Question, phone: Phone, email: Email, answer: Answer, tags: set<Tag>): (r: QAndA)
    ensures r.question == question && r.phone == phone && r.email == email
    ensures r.answer == answer && r.tags == tags
  {
    QAndA(question, phone, email, answer, {} + tags)
  }

  /**
   * The constructor without phone and email: both identity fields receive
   * the fixed sentinel values.
   */
  function CreateWithoutContact(question: Question, answer: Answer, tags: set<Tag>): (r: QAndA)
    ensures r == Create(question, DefaultPhone, DefaultEmail, answer, tags)
  {
    QAndA(question, Phone("00000000"), Email("toBeIgnoredNow@email.com"), answer, {} + tags)
  }

  /** The set of tags named by an enumeration, in whatever order. */
  function TagSet(ts: seq<Tag>): set<Tag>
  {
    set t | t in ts
  }

  // ---------------------------------------------------------------------
  // Weak identity

  lemma IsSameQuestionSetReflexive(a: QAndA)
    ensures a.IsSameQuestionSet(Some(a))
  {
  }

  lemma IsSameQuestionSetSymmetric(a: QAndA, b: QAndA)
    ensures a.IsSameQuestionSet(Some(b)) <==> b.IsSameQuestionSet(Some(a))
  {
  }

  /**
   * The weak identity is not transitive: a and c can each share an identity
   * field with b (one the phone, the other the email) without sharing any
   * with each other.
   */
  lemma IsSameQuestionSetNotTransitive()
    ensures exists a: QAndA, b: QAndA, c: QAndA ::
              a.IsSameQuestionSet(Some(b)) && b.IsSameQuestionSet(Some(c)) && !a.IsSameQuestionSet(Some(c))
  {
    var q, ans := Question("Q1"), Answer("A1");
    var a := Create(q, Phone("11111111"), Email("a@x.com"), ans, {});
    var b := Create(q, Phone("11111111"), Email("b@x.com"), ans, {});
    var c := Create(q, Phone("22222222"), Email("b@x.com"), ans, {});
    assert a.IsSameQuestionSet(Some(b)) && b.IsSameQuestionSet(Some(c)) && !a.IsSameQuestionSet(Some(c));
  }

  // ---------------------------------------------------------------------
  // Full equality

  /** Full equality compares exactly the five fields, tags as a set. */
  lemma EqualsIffAllFields(a: QAndA, b: QAndA)
    ensures a.Equals(QAndAObj(b)) <==>
              && a.question == b.question && a.phone == b.phone && a.email == b.email
              && a.answer == b.answer && a.tags == b.tags
  {
  }

  /** Full equality is reflexive, symmetric and transitive, and rejects null and other classes. */
  lemma EqualsIsEquivalence(a: QAndA, b: QAndA, c: QAndA)
    ensures a.Equals(QAndAObj(a))
    ensures a.Equals(QAndAObj(b)) <==> b.Equals(QAndAObj(a))
    ensures a.Equals(QAndAObj(b)) && b.Equals(QAndAObj(c)) ==> a.Equals(QAndAObj(c))
    ensures !a.Equals(Null) && !a.Equals(NonQAndA)
  {
  }

  /**
   * Full equality is strictly stronger than the weak identity: it implies
   * it, and two records can be the same question set without being equal.
   */
  lemma EqualsStrongerThanIdentity(a: QAndA, b: QAndA)
    ensures a.Equals(QAndAObj(b)) ==> a.IsSameQuestionSet(Some(b))
    ensures exists x: QAndA, y: QAndA :: x.IsSameQuestionSet(Some(y)) && !x.Equals(QAndAObj(y))
  {
    var x := Create(Question("Q1"), DefaultPhone, DefaultEmail, Answer("A1"), {});
    var y := Create(Question("Q1"), DefaultPhone, DefaultEmail, Answer("A2"), {});
    assert x.IsSameQuestionSet(Some(y)) && !x.Equals(QAndAObj(y));
  }

  /** Fully equal records have equal hash codes, whatever the combining function. */
  lemma EqualsImpliesSameHash(a: QAndA, b: QAndA, objectsHash: (Question, Phone, Email, Answer, set<Tag>) -> int32)
    ensures a.Equals(QAndAObj(b)) ==> a.HashCode(objectsHash) == b.HashCode(objectsHash)
  {
  }

  // ---------------------------------------------------------------------
  // Editing data fields

  /**
   * A record rebuilt with the same identity fields and new data fields is
   * still the same question set as the original, in both directions, and
   * is fully equal to it exactly when the data fields are unchanged.
   */
  lemma DataChangePreservesIdentity(r: QAndA, answer: Answer, tags: set<Tag>)
    ensures var e := Create(r.question, r.phone, r.email, answer, tags);
            && r.IsSameQuestionSet(Some(e)) && e.IsSameQuestionSet(Some(r))
            && (r.Equals(QAndAObj(e)) <==> answer == r.answer && tags == r.tags)
  {
  }

  // ---------------------------------------------------------------------
  // The constructor without phone and email

  /** Two records built without phone and email are the same question set exactly when their questions are equal. */
  lemma DefaultsCollideOnQuestion(q1: Question, a1: Answer, t1: set<Tag>, q2: Question, a2: Answer, t2: set<Tag>)
    ensures CreateWithoutContact(q1, a1, t1).IsSameQuestionSet(Some(CreateWithoutContact(q2, a2, t2))) <==> q1 == q2
  {
  }

  /**
   * A record built without phone and email collides with any record with
   * the same question that carries the sentinel phone or the sentinel email.
   */
  lemma DefaultCollidesWith(q: Question, a: Answer, t: set<Tag>, other: QAndA)
    ensures CreateWithoutContact(q, a, t).IsSameQuestionSet(Some(other)) <==>
              other.question == q && (other.phone == DefaultPhone || other.email == DefaultEmail)
  {
  }

  // ---------------------------------------------------------------------
  // Tags

  /**
   * Tag order and repetition play no part in equality: records built from
   * two enumerations that name the same tags, in any order and any number
   * of times, are fully equal.
   */
  lemma EqualsIgnoresTagOrder(q: Question, p: Phone, e: Email, a: Answer, ts1: seq<Tag>, ts2: seq<Tag>)
    requires forall t :: t in ts1 <==> t in ts2
    ensures Create(q, p, e, a, TagSet(ts1)).Equals(QAndAObj(Create(q, p, e, a, TagSet(ts2))))
  {
    // Not needed by the verifier; states for the reader the step the proof rests on.
    assert TagSet(ts1) == TagSet(ts2);
  }
}
