/**
 * The field value types of a flashcard. Each wraps the raw string it was
 * built from; the validation each field type applies to that string is not
 * part of this model, so values here are compared by equality only.
 */
module Fields {

  /** The question of a flashcard (first identity field). */
  datatype Question = Question(value: string)

  /** The contact phone of a flashcard (second identity field). */
  datatype Phone = Phone(value: string)

  /** The contact email of a flashcard (third identity field). */
  datatype Email = Email(value: string)

  /** The answer of a flashcard (data field). */
  datatype Answer = Answer(value: string)

  /** One tag attached to a flashcard (the tag set is a data field). */
  datatype Tag = Tag(name: string)

  /** Phone stored by the constructor that omits phone and email. */
  const DefaultPhone: Phone := Phone("00000000")

  /** Email stored by the constructor that omits phone and email. */
  const DefaultEmail: Email := Email("toBeIgnoredNow@email.com")
}
