/**
 * The static content arrays of the site (src/utils/constants.tsx), defined once
 * and never mutated, with the facts about them the rendering relies on:
 * distinct list keys and proficiencies that are valid percentages.
 */
module Constants {
  import opened Types
  import opened Sequences

  const VOTING_SYSTEM: Project := Project(
    "blockchain-voting",
    "Blockchain-Based Voting System",
    "Enterprise-grade voting platform with 4 organizations, secure encrypted voting, and real-time auditing. Implemented Zero-Knowledge Proofs and Threshold Encryption.",
    Some("/projects/voting.jpg"),
    ["Hyperledger Fabric", "React", "Node.js", "Zero-Knowledge Proofs"],
    Some("https://github.com/Md-Mohimul-Alam/blockchain-voting-system"),
    None,
    true,
    Blockchain)

  const HEALTHCARE_NETWORK: Project := Project(
    "healthcare-network",
    "Healthcare Data Exchange Network",
    "Private blockchain for 3 healthcare institutions with granular RBAC and real-time dashboard. Ensured 98% data consistency in clinical simulations.",
    Some("/projects/healthcare.jpg"),
    ["Hyperledger Fabric", "React", "Node.js", "MongoDB"],
    Some("https://github.com/Md-Mohimul-Alam/HMS"),
    None,
    true,
    Blockchain)

  const HEALTH_MONITORING: Project := Project(
    "health-monitoring",
    "ESP32-Based Health Monitoring System",
    "Real-time patient vitals monitoring using ECG and SpO2 sensors integrated with Hyperledger Fabric blockchain. 95.4% ECG and 93.8% SpO2 accuracy.",
    Some("/projects/health-iot.jpg"),
    ["ESP32", "Hyperledger Fabric", "React", "MAX30102", "AD8232"],
    Some("https://github.com/Md-Mohimul-Alam"),
    None,
    true,
    Fullstack)

  const EXPENSE_TRACKER: Project := Project(
    "expense-tracker",
    "Personal Expense Tracker",
    "Full-stack expense management app with interactive charts and JWT authentication. Automated financial insights reducing manual tracking by 75%.",
    Some("/projects/expense.jpg"),
    ["React", "TypeScript", "Node.js", "Express", "MongoDB"],
    Some("https://github.com/Md-Mohimul-Alam/Personal-Expense-Tracker"),
    None,
    false,
    Fullstack)

  const ECOMMERCE: Project := Project(
    "ecommerce",
    "E-commerce Web Application",
    "Responsive product catalog, shopping cart, and admin dashboard with order management and simulated payment gateway with real-time updates.",
    Some("/projects/ecommerce.jpg"),
    ["React", "JavaScript", "Node.js", "MySQL", "TailwindCSS"],
    Some("https://github.com/Md-Mohimul-Alam/Md-Mohimul-Alam-Intern_Project_E-Commerce"),
    None,
    false,
    Fullstack)

  const SANTARAN: Project := Project(
    "santaran",
    "Santaran Project",
    "Responsive web platform for multidisciplinary artist-run organization with interactive dashboards and mobile-first design.",
    Some("/projects/santaran.jpg"),
    ["Nuxt.js", "Vue.js", "TailwindCSS"],
    None,
    None,
    false,
    Frontend)

  const PROJECTS: seq<Project> := [VOTING_SYSTEM, HEALTHCARE_NETWORK, HEALTH_MONITORING, EXPENSE_TRACKER, ECOMMERCE, SANTARAN]

  const SKILLS: seq<Skill> := [
    Skill("Frontend", ["React.js", "Next.js", "TypeScript", "TailwindCSS", "Framer Motion", "Three.js"], 95),
    Skill("Backend", ["Node.js", "Express.js", "GraphQL", "REST API", "MongoDB", "MySQL"], 85),
    Skill("Blockchain", ["Hyperledger Fabric", "Smart Contracts", "Zero-Knowledge Proofs", "Threshold Encryption"], 90),
    Skill("Web3", ["Web3.js", "Hyperledger Fabric SDK", "Hyperledger Composer", "hyperledger Arise Framework", "Hyperledger Fabric CA"], 80),
    Skill("DevOps", ["Docker", "Git", "CI/CD", "Linux"], 78),
    Skill("IoT & Embedded", ["ESP32", "Arduino", "Embedded Systems", "Sensor Integration"], 82)
  ]

  const CISCO_CCIA: Certification := Certification(
    "cisco-ccia",
    "CCNAv7: Introduction to Networks",
    "Cisco",
    "2022",
    "https://images.credly.com/size/680x680/images/242902b5-f527-42ad-865e-977c9e1b5b58/image.png",
    "https://www.credly.com/badges/75ff6769-1e36-44d2-a7a5-fce98429a971",
    "Networking")

  const CISCO_CCNA: Certification := Certification(
    "cisco-ccna",
    "CCNAv7: Switching, Routing, and Wireless Essentials",
    "Cisco",
    "2024",
    "https://images.credly.com/size/680x680/images/f4ccdba9-dd65-4349-baad-8f05df116443/CCNASRWE__1_.png",
    "https://www.credly.com/badges/0b045a72-c003-4aef-bb74-6b91b41d3936",
    "Networking")

  const ETHICAL_HACKER: Certification := Certification(
    "ethical-hacker",
    "Ethical Hacker",
    "Cisco Networking Academy",
    "2024",
    "https://images.credly.com/images/70d71df5-f3dc-4380-9b9d-f22513a70417/CCNAITN__1_.png",
    "https://www.credly.com/users/mohim-reza",
    "Security")

  const REACT_NODEJS: Certification := Certification(
    "react-nodejs",
    "React.js & Node.js",
    "Global Skills Development Agency",
    "2023",
    "https://globalskills.com.bd/assets/images/logo-f-width.png",
    "https://www.credly.com/users/mohim-reza",
    "Development")

  const GROWTH_HACKING: Certification := Certification(
    "growth-hacking",
    "Growth Hacking & Online Campaigns Internship",
    "RIT & Excelerate",
    "2025",
    "https://excelerateuserprofile.s3.ap-south-1.amazonaws.com/WebsiteImageFiles/Badge/Badge_0000000010KRZVQY9TWPXFJPKG_image_link.png",
    "",
    "Marketing")

  const CERTIFICATIONS: seq<Certification> := [CISCO_CCIA, CISCO_CCNA, ETHICAL_HACKER, REACT_NODEJS, GROWTH_HACKING]

  const SHOP_ONLINE_NY: Experience := Experience(
    "shop-online-ny",
    "Shop Online New York",
    "React Developer - Remote",
    "Sep 2025 – Present",
    [
      "Developed responsive e-commerce frontend using React.js and TailwindCSS",
      "Integrated API endpoints and implemented TypeScript for type safety",
      "Collaborated with team to optimize performance and UX"
    ],
    ["React", "TypeScript", "TailwindCSS"])

  const BETAFORE: Experience := Experience(
    "betafore",
    "BetaFore - Software & Digital Media",
    "React Developer Intern",
    "May 2024 – Oct 2024",
    [
      "Built e-commerce UI with responsive product catalog and filtering",
      "Worked with backend team for API integration"
    ],
    ["React", "JavaScript", "CSS"])

  const TECHTRIOZ: Experience := Experience(
    "techtrioz",
    "TechTrioZ Solutions",
    "Data Entry Specialist",
    "Jan 2023 – Feb 2024",
    [
      "Managed digital data entry systems and geospatial data processing",
      "Maintained 99.8% data accuracy"
    ],
    ["Data Processing", "GIS", "Database Management"])

  const EXPERIENCE: seq<Experience> := [SHOP_ONLINE_NY, BETAFORE, TECHTRIOZ]

  /** The ids of the projects, in order. */
  function ProjectIds(ps: seq<Project>): seq<string> {
    Map(ps, (p: Project) => p.id)
  }

  /** The ids of the certifications, in order. */
  function CertificationIds(cs: seq<Certification>): seq<string> {
    Map(cs, (c: Certification) => c.id)
  }

  /** The ids of the experience entries, in order. */
  function ExperienceIds(es: seq<Experience>): seq<string> {
    Map(es, (e: Experience) => e.id)
  }

  /** The category names of the skill groups, in order. */
  function SkillCategories(ss: seq<Skill>): seq<string> {
    Map(ss, (s: Skill) => s.category)
  }

  /** Project ids are the keys of the project grid, so they are pairwise distinct. */
  lemma ProjectIdsDistinct()
    ensures AllDistinct(ProjectIds(PROJECTS))
  {
  }

  /** Certification ids are the keys of the badge grid. */
  lemma CertificationIdsDistinct()
    ensures AllDistinct(CertificationIds(CERTIFICATIONS))
  {
  }

  lemma ExperienceIdsDistinct()
    ensures AllDistinct(ExperienceIds(EXPERIENCE))
  {
  }

  /** Skill category names are the keys of the skill cards. */
  lemma SkillCategoriesDistinct()
    ensures AllDistinct(SkillCategories(SKILLS))
  {
  }

  /** Every proficiency is a percentage, as the bar width `${proficiency}%` needs. */
  lemma ProficienciesArePercentages()
    ensures forall s :: s in SKILLS ==> 0 <= s.proficiency <= 100
  {
  }
}
