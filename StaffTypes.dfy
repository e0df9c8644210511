/** The records the staff page exchanges with the backend: a staff record
    as loaded, the editable form payload sent on create and update, and a
    vacancy record. Fields that the backend may leave null or undefined are
    `Option`s. */
module StaffTypes {
  import opened Wrappers

  /** A staff record as returned by the staff listing. */
  datatype StaffRecord = StaffRecord(
    id: int,
    firstName: Option<string>,
    lastName: Option<string>,
    email: Option<string>,
    phone: Option<string>,
    alternatePhone: Option<string>,
    gender: Option<string>,
    dateOfBirth: Option<string>,
    employeeCode: Option<string>,
    department: Option<string>,
    designation: Option<string>,
    employmentType: Option<string>,
    dateOfJoining: Option<string>,
    experienceYears: Option<real>,
    salary: Option<real>,
    addressLine1: Option<string>,
    addressLine2: Option<string>,
    city: Option<string>,
    state: Option<string>,
    postalCode: Option<string>,
    country: Option<string>,
    emergencyContactName: Option<string>,
    emergencyContactPhone: Option<string>,
    status: Option<string>,
    notes: Option<string>,
    createdAt: string
  )

  /** The form buffer: every editable field of a staff record plus the
      write-only login password. */
  datatype StaffForm = StaffForm(
    firstName: string,
    lastName: string,
    email: string,
    phone: string,
    alternatePhone: string,
    gender: string,
    dateOfBirth: string,
    employeeCode: string,
    department: string,
    designation: string,
    employmentType: string,
    dateOfJoining: string,
    experienceYears: real,
    salary: real,
    addressLine1: string,
    addressLine2: string,
    city: string,
    state: string,
    postalCode: string,
    country: string,
    emergencyContactName: string,
    emergencyContactPhone: string,
    status: string,
    notes: string,
    loginPassword: string
  )

  /** A vacancy as returned by the vacancy listing; `createdByStaffId`
      refers to the staff record that created it, when there is one. */
  datatype VacancyRecord = VacancyRecord(
    id: int,
    jobTitle: string,
    department: string,
    employmentType: string,
    openings: int,
    matchThreshold: real,
    mcqQuestionCount: int,
    mcqPassThreshold: real,
    status: string,
    createdByStaffId: Option<int>,
    createdByName: string
  )
}
